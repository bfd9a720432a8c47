/**
 * The behaviour that post-processes a component's markup (`AbstractTransformerBehavior`).
 * Before the component renders it saves the request cycle's current response and installs a
 * buffer in its place; after rendering it writes the transformed buffer to the saved response
 * and makes that response current again, also when the transformation fails.
 */
module TransformerBehavior {
  import opened Wrappers

  /** A response markup is written to; `text` is what has been written (its `toString`). */
  class Response {
    var text: string

    constructor (text: string)
      ensures this.text == text
    {
      this.text := text;
    }

    method Write(s: string)
      modifies this
      ensures text == old(text) + s
    {
      text := text + s;
    }
  }

  /** The request cycle's cell holding the response that rendering currently writes to. */
  class RequestCycle {
    var response: Response?

    constructor (response: Response?)
      ensures this.response == response
    {
      this.response := response;
    }

    method SetResponse(r: Response?)
      modifies this
      ensures response == r
    {
      response := r;
    }
  }

  /** The attributes of a component's open tag. */
  class ComponentTag {
    var attributes: map<string, string>

    constructor (attributes: map<string, string>)
      ensures this.attributes == attributes
    {
      this.attributes := attributes;
    }

    method Put(key: string, value: string)
      modifies this
      ensures attributes == old(attributes)[key := value]
    {
      attributes := attributes[key := value];
    }
  }

  /** An opaque reference to the component the behaviour is attached to. */
  datatype Component = Component(id: nat)

  /** Why `onRendered` failed: a null dereference, or the transformation threw. */
  datatype Cause = NullPointerException | TransformFailed(reason: string)

  datatype BehaviorException =
    | IllegalStateException(message: string)
    | WicketRuntimeException(message: string, cause: Cause)

  const NullResponseMessage := "newResponse() must not return null"
  const TransformErrorMessage := "Error while transforming the output: "
  const WicketNamespaceAttribute := "xmlns:wicket"
  const WicketNamespace := "http://wicket.apache.org"

  class AbstractTransformerBehavior {
    /** The response saved by `beforeRender`, to be restored afterwards. */
    var webResponse: Response?

    /** The subclass's `transform`: the new markup, or the reason it threw. */
    const transform: (Component, string) -> Result<string, string>

    constructor (transform: (Component, string) -> Result<string, string>)
      ensures webResponse == null && this.transform == transform
    {
      webResponse := null;
      this.transform := transform;
    }

    /** The default `newResponse`: a new, empty string response. */
    method NewResponse() returns (r: Response)
      ensures fresh(r) && r.text == ""
    {
      r := new Response("");
    }

    /** `onComponentTag`: declares the wicket namespace on the component's tag. */
    method OnComponentTag(component: Component, tag: ComponentTag)
      modifies tag
      ensures tag.attributes == old(tag.attributes)[WicketNamespaceAttribute := WicketNamespace]
    {
      tag.Put(WicketNamespaceAttribute, WicketNamespace);
    }

    /**
     * `beforeRender`, given what `newResponse()` returned: saves the current response and
     * makes the new one current. The response is saved before the null check, so a null
     * buffer still overwrites `webResponse` but leaves the current response alone.
     */
    method BeforeRender(component: Component, cycle: RequestCycle, created: Response?)
      returns (outcome: Outcome<BehaviorException>)
      modifies this, cycle
      ensures webResponse == old(cycle.response)
      ensures created == null ==>
        outcome == Fail(IllegalStateException(NullResponseMessage)) && cycle.response == old(cycle.response)
      ensures created != null ==> outcome == Pass && cycle.response == created
    {
      webResponse := cycle.response;
      if created == null {
        return Fail(IllegalStateException(NullResponseMessage));
      }
      cycle.SetResponse(created);
      outcome := Pass;
    }

    /**
     * `onRendered`: writes the transformation of the buffered markup to the saved response
     * and, whatever happens, makes the saved response current again. Any failure inside,
     * a thrown transformation or a null response, surfaces as a WicketRuntimeException.
     */
    method OnRendered(component: Component, cycle: RequestCycle) returns (outcome: Outcome<BehaviorException>)
      modifies cycle, webResponse
      ensures webResponse == old(webResponse)
      ensures cycle.response == webResponse
      ensures old(cycle.response) == null ==>
        outcome == Fail(WicketRuntimeException(TransformErrorMessage, NullPointerException))
      ensures old(cycle.response) != null ==>
        var r := transform(component, old(cycle.response.text));
        && (r.Failure? ==> outcome == Fail(WicketRuntimeException(TransformErrorMessage, TransformFailed(r.error))))
        && (r.Success? && webResponse == null ==>
              outcome == Fail(WicketRuntimeException(TransformErrorMessage, NullPointerException)))
        && (r.Success? && webResponse != null ==>
              outcome == Pass && webResponse.text == old(webResponse.text) + r.value)
      ensures outcome.Fail? && webResponse != null ==> webResponse.text == old(webResponse.text)
    {
      var response := cycle.response;
      if response == null {
        outcome := Fail(WicketRuntimeException(TransformErrorMessage, NullPointerException));
      } else {
        var output := transform(component, response.text);
        if output.Failure? {
          outcome := Fail(WicketRuntimeException(TransformErrorMessage, TransformFailed(output.error)));
        } else if webResponse == null {
          outcome := Fail(WicketRuntimeException(TransformErrorMessage, NullPointerException));
        } else {
          webResponse.Write(output.value);
          outcome := Pass;
        }
      }
      cycle.SetResponse(webResponse);
    }

    /** `cleanup`: forgets the saved response. */
    method Cleanup()
      modifies this
      ensures webResponse == null
    {
      webResponse := null;
    }

    /** `onException`: makes the saved response current again, if one is saved. */
    method OnException(component: Component, cycle: RequestCycle)
      modifies cycle
      ensures old(webResponse) != null ==> cycle.response == webResponse
      ensures old(webResponse) == null ==> cycle.response == old(cycle.response)
    {
      if webResponse != null {
        cycle.SetResponse(webResponse);
      }
    }
  }

  /**
   * One render of a component through the behaviour, as the framework drives it: the
   * default `newResponse`, `beforeRender`, the component writing `markup` to the current
   * response, then `onRendered`. The current response ends where it started, and the
   * original response receives exactly the transformed markup, or nothing when the
   * transformation fails.
   */
  method RenderThroughBehavior(behavior: AbstractTransformerBehavior, component: Component,
                               cycle: RequestCycle, markup: string)
    returns (outcome: Outcome<BehaviorException>)
    modifies behavior, cycle, cycle.response
    ensures cycle.response == old(cycle.response)
    ensures behavior.webResponse == old(cycle.response)
    ensures var r := behavior.transform(component, markup);
      && (r.Failure? ==> outcome == Fail(WicketRuntimeException(TransformErrorMessage, TransformFailed(r.error))))
      && (r.Success? && old(cycle.response) == null ==>
            outcome == Fail(WicketRuntimeException(TransformErrorMessage, NullPointerException)))
      && (r.Success? && old(cycle.response) != null ==>
            outcome == Pass && cycle.response.text == old(cycle.response.text) + r.value)
    ensures outcome.Fail? && cycle.response != null ==> cycle.response.text == old(cycle.response.text)
  {
    var buffer := behavior.NewResponse();
    outcome := behavior.BeforeRender(component, cycle, buffer);
    cycle.response.Write(markup);
    assert buffer.text == markup;
    outcome := behavior.OnRendered(component, cycle);
  }

  /** After `cleanup`, `onException` leaves the current response alone. */
  method CleanupThenException(behavior: AbstractTransformerBehavior, component: Component, cycle: RequestCycle)
    modifies behavior, cycle
    ensures cycle.response == old(cycle.response)
    ensures behavior.webResponse == null
  {
    behavior.Cleanup();
    behavior.OnException(component, cycle);
  }
}
