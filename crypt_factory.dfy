/**
 * The crypt factory that keeps one encryption key per http session
 * (`KeyInSessionSunJceCryptFactory`): the key is looked up in the session's attribute table
 * under a name derived from the application key and the factory's class name, and created
 * from the session id and a fresh UUID when absent.
 */
module CryptFactory {
  import opened Wrappers

  /** An http session: its id and its attribute table. */
  class HttpSession {
    const id: string
    var attributes: map<string, string>

    constructor (id: string, attributes: map<string, string>)
      ensures this.id == id && this.attributes == attributes
    {
      this.id := id;
      this.attributes := attributes;
    }

    /** `getAttribute`: the value stored under `name`, or `None` for Java's null. */
    function GetAttribute(name: string): (v: Option<string>)
      reads this
      ensures v.Some? <==> name in attributes
      ensures v.Some? ==> v.value == attributes[name]
    {
      if name in attributes then Some(attributes[name]) else None
    }

    method SetAttribute(name: string, value: string)
      modifies this
      ensures attributes == old(attributes)[name := value]
    {
      attributes := attributes[name := value];
    }
  }

  /** The crypt the factory builds; only its key is modelled. */
  class SunJceCrypt {
    var key: Option<string>

    constructor ()
      ensures key == None
    {
      key := None;
    }

    method SetKey(k: string)
      modifies this
      ensures key == Some(k)
    {
      key := Some(k);
    }
  }

  /** `getClass().getName()` for the factory itself (a subclass has its own name). */
  const FactoryClassName := "org.apache.wicket.util.crypt.KeyInSessionSunJceCryptFactory"

  /** The session attribute the key is kept under. */
  function KeyAttribute(applicationKey: string, className: string): string {
    applicationKey + "." + className
  }

  /** A new key: the session id, a dot and a random UUID. */
  function NewKey(sessionId: string, uuid: string): string {
    sessionId + "." + uuid
  }

  /**
   * Get-or-create on an attribute table: the key stored under `attr` and the table
   * afterwards, `candidate` being stored when nothing is there yet.
   */
  function GetOrCreate(attributes: map<string, string>, attr: string, candidate: string)
    : (r: (string, map<string, string>))
    ensures attr in r.1 && r.1[attr] == r.0
    ensures attr in attributes ==> r.0 == attributes[attr] && r.1 == attributes
    ensures attr !in attributes ==> r.0 == candidate
    ensures r.1.Keys == attributes.Keys + {attr}
    ensures forall k :: k in attributes && k != attr ==> r.1[k] == attributes[k]
  {
    if attr in attributes then (attributes[attr], attributes) else (candidate, attributes[attr := candidate])
  }

  /**
   * `newCrypt`: a crypt keyed with the session's key, creating and storing the key first
   * when the session has none. `uuid` stands for `UUID.randomUUID().toString()`.
   */
  method NewCrypt(session: HttpSession, applicationKey: string, className: string, uuid: string)
    returns (crypt: SunJceCrypt)
    modifies session
    ensures fresh(crypt)
    ensures var r := GetOrCreate(old(session.attributes), KeyAttribute(applicationKey, className), NewKey(session.id, uuid));
      session.attributes == r.1 && crypt.key == Some(r.0)
    ensures var attr := KeyAttribute(applicationKey, className);
      && attr in session.attributes
      && crypt.key == Some(session.attributes[attr])
      && (attr !in old(session.attributes) ==> session.attributes[attr] == session.id + "." + uuid)
  {
    var keyAttr := KeyAttribute(applicationKey, className);
    var stored := session.GetAttribute(keyAttr);
    var key: string;
    if stored.None? {
      key := NewKey(session.id, uuid);
      session.SetAttribute(keyAttr, key);
    } else {
      key := stored.value;
    }
    crypt := new SunJceCrypt();
    crypt.SetKey(key);
  }

  /**
   * Two successive calls on one session hand out the same key, whatever UUIDs they draw,
   * and the second call does not touch the session.
   */
  method NewCryptTwice(session: HttpSession, applicationKey: string, className: string, uuid1: string, uuid2: string)
    returns (first: SunJceCrypt, second: SunJceCrypt)
    modifies session
    ensures first.key.Some? && first.key == second.key
    ensures var attr := KeyAttribute(applicationKey, className);
      session.attributes == GetOrCreate(old(session.attributes), attr, NewKey(session.id, uuid1)).1
  {
    first := NewCrypt(session, applicationKey, className, uuid1);
    ghost var between := session.attributes;
    second := NewCrypt(session, applicationKey, className, uuid2);
    assert session.attributes == between;
  }

  /** A second get-or-create finds the key the first one left and changes nothing. */
  lemma GetOrCreateIdempotent(attributes: map<string, string>, attr: string, c1: string, c2: string)
    ensures var first := GetOrCreate(attributes, attr, c1);
      GetOrCreate(first.1, attr, c2) == first
  {
  }

  /**
   * Applications sharing a session keep separate keys: one factory class uses the same
   * attribute under two application keys only when they are the same key.
   */
  lemma KeyAttributeSeparatesApplications(app1: string, app2: string, className: string)
    requires KeyAttribute(app1, className) == KeyAttribute(app2, className)
    ensures app1 == app2
  {
    var t := "." + className;
    assert KeyAttribute(app1, className) == app1 + t;
    assert KeyAttribute(app2, className) == app2 + t;
    assert app1 == (app1 + t)[..|app1|];
    assert app2 == (app2 + t)[..|app2|];
  }

  /** A created key starts with the session id followed by a dot, and ends with the UUID. */
  lemma NewKeyShape(sessionId: string, uuid: string)
    ensures var k := NewKey(sessionId, uuid);
      |k| == |sessionId| + 1 + |uuid| && k[..|sessionId| + 1] == sessionId + "." && k[|sessionId| + 1..] == uuid
  {
  }
}
