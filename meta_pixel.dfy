/**
 * The analytics event bridge: thin, guarded wrappers that hand standard
 * and custom events to the page's tracking handle `window.fbq`. Every
 * operation first checks the guard `Window.Ready()`; when it fails the
 * operation warns and sends nothing. The call on the handle sits inside a
 * try/catch, so an exception thrown by the handle ends the operation with
 * an error log and never reaches the caller: no operation here has a
 * failure outcome, only the kind of console output it ends with.
 */
module MetaPixel {
  import opened Wrappers
  import opened JsValues
  import opened Browser

  /**
   * `initializeMetaPixel(pixelId)`: notes in the log that the handle is
   * already there, and otherwise does nothing. It changes no state (it
   * has no `modifies` clause), whether or not the handle is present.
   */
  method InitializeMetaPixel(w: Window, pixelId: string) returns (log: LogLevel)
    ensures log == Info <==> w.hasWindow && w.handlePresent
    ensures log == Info || log == Quiet
  {
    if !w.hasWindow {
      return Quiet;
    }
    if w.handlePresent {
      return Info;
    }
    return Quiet;
  }

  /** The payload of a page view: the caller's keys, then `page_name`, which wins over a caller's `page_name`. */
  function PageViewPayload(pageName: Option<string>, parameters: Option<Payload>): (p: Payload)
    ensures p.Keys == Spread(parameters).Keys + {"page_name"}
    ensures forall k :: k in Spread(parameters) && k != "page_name" ==> p[k] == Spread(parameters)[k]
    ensures pageName.Some? && pageName.value != "" ==> p["page_name"] == Str(pageName.value)
    ensures pageName.None? || pageName.value == "" ==> p["page_name"] == Str("UnnamedPage")
  {
    Spread(parameters)["page_name" := Str(OrElse(pageName, "UnnamedPage"))]
  }

  /** `trackPageView(pageName, parameters)`: one `("track", "PageView", payload)` call when the guard holds. */
  method TrackPageView(w: Window, pageName: Option<string>, parameters: Option<Payload>) returns (log: LogLevel)
    modifies w`calls
    ensures !w.Ready() ==> w.calls == old(w.calls) && log == Warn
    ensures w.Ready() ==>
      var c := Call("track", "PageView", Some(PageViewPayload(pageName, parameters)));
      w.calls == old(w.calls) + [c] && (log == if c in w.failsOn then Error else Info)
  {
    if !w.Ready() {
      return Warn;
    }
    var eventData := PageViewPayload(pageName, parameters);
    var threw := w.Invoke(Call("track", "PageView", Some(eventData)));
    log := if threw then Error else Info;
  }

  /** `trackEvent(eventName, parameters)`: one `("track", eventName, parameters)` call, parameters passed unchanged. */
  method TrackEvent(w: Window, eventName: string, parameters: Option<Payload>) returns (log: LogLevel)
    modifies w`calls
    ensures !w.Ready() ==> w.calls == old(w.calls) && log == Warn
    ensures w.Ready() ==>
      var c := Call("track", eventName, parameters);
      w.calls == old(w.calls) + [c] && (log == if c in w.failsOn then Error else Info)
  {
    if !w.Ready() {
      return Warn;
    }
    var threw := w.Invoke(Call("track", eventName, parameters));
    log := if threw then Error else Info;
  }

  /** `trackLead(parameters)`: exactly `trackEvent("Lead", parameters)`. */
  method TrackLead(w: Window, parameters: Option<Payload>) returns (log: LogLevel)
    modifies w`calls
    ensures !w.Ready() ==> w.calls == old(w.calls) && log == Warn
    ensures w.Ready() ==>
      var c := Call("track", "Lead", parameters);
      w.calls == old(w.calls) + [c] && (log == if c in w.failsOn then Error else Info)
  {
    log := TrackEvent(w, "Lead", parameters);
  }

  /** `trackContact(parameters)`: exactly `trackEvent("Contact", parameters)`. */
  method TrackContact(w: Window, parameters: Option<Payload>) returns (log: LogLevel)
    modifies w`calls
    ensures !w.Ready() ==> w.calls == old(w.calls) && log == Warn
    ensures w.Ready() ==>
      var c := Call("track", "Contact", parameters);
      w.calls == old(w.calls) + [c] && (log == if c in w.failsOn then Error else Info)
  {
    log := TrackEvent(w, "Contact", parameters);
  }

  /** `parameters.service || "General Inquiry"`. */
  function LeadCategory(parameters: Payload): (v: Value)
    ensures Truthy(v)
    ensures Truthy(Get(parameters, "service")) ==> v == parameters["service"]
    ensures !Truthy(Get(parameters, "service")) ==> v == Str("General Inquiry")
  {
    var service := Get(parameters, "service");
    if Truthy(service) then service else Str("General Inquiry")
  }

  /**
   * The Lead payload of a contact form submission: four fixed keys, then
   * every key of the caller's object spread over them (absent fields are
   * not filtered out, and a caller key wins over a fixed one).
   */
  function LeadPayload(parameters: Payload): (p: Payload)
    ensures p.Keys == parameters.Keys + {"content_name", "content_category", "value", "currency"}
    ensures forall k :: k in parameters ==> p[k] == parameters[k]
    ensures "content_name" !in parameters ==> p["content_name"] == Str("Contact Form Submission")
    ensures "content_category" !in parameters ==> p["content_category"] == LeadCategory(parameters)
    ensures "value" !in parameters ==> p["value"] == Num(1)
    ensures "currency" !in parameters ==> p["currency"] == Str("USD")
  {
    map["content_name" := Str("Contact Form Submission"),
        "content_category" := LeadCategory(parameters),
        "value" := Num(1),
        "currency" := Str("USD")] + parameters
  }

  /**
   * `trackContactFormSubmission(parameters)`: a Lead call and then a
   * Contact call carrying the caller's object unchanged, both in one try
   * block. If the Lead call throws, the Contact call is not made. An
   * `undefined` argument makes reading `parameters.service` throw before
   * any call, and that is caught too.
   */
  method TrackContactFormSubmission(w: Window, parameters: Option<Payload>) returns (log: LogLevel)
    modifies w`calls
    ensures !w.Ready() ==> w.calls == old(w.calls) && log == Warn
    ensures w.Ready() && parameters.None? ==> w.calls == old(w.calls) && log == Error
    ensures w.Ready() && parameters.Some? ==>
      var lead := Call("track", "Lead", Some(LeadPayload(parameters.value)));
      var contact := Call("track", "Contact", parameters);
      && (lead in w.failsOn ==> w.calls == old(w.calls) + [lead] && log == Error)
      && (lead !in w.failsOn ==> w.calls == old(w.calls) + [lead, contact])
      && (lead !in w.failsOn ==> (log == if contact in w.failsOn then Error else Info))
  {
    if !w.Ready() {
      return Warn;
    }
    if parameters.None? {
      return Error;
    }
    var threw := w.Invoke(Call("track", "Lead", Some(LeadPayload(parameters.value))));
    if threw {
      return Error;
    }
    threw := w.Invoke(Call("track", "Contact", parameters));
    log := if threw then Error else Info;
  }

  /** `trackCustomEvent(eventName, parameters)`: as `TrackEvent`, with the verb `"trackCustom"`. */
  method TrackCustomEvent(w: Window, eventName: string, parameters: Option<Payload>) returns (log: LogLevel)
    modifies w`calls
    ensures !w.Ready() ==> w.calls == old(w.calls) && log == Warn
    ensures w.Ready() ==>
      var c := Call("trackCustom", eventName, parameters);
      w.calls == old(w.calls) + [c] && (log == if c in w.failsOn then Error else Info)
  {
    if !w.Ready() {
      return Warn;
    }
    var threw := w.Invoke(Call("trackCustom", eventName, parameters));
    log := if threw then Error else Info;
  }

  /** A form with only a name yields a Lead payload of exactly five keys: the four fixed ones and `name`. */
  lemma LeadPayloadForNameOnly()
    ensures LeadPayload(map["name" := Str("Ann")]) ==
      map["content_name" := Str("Contact Form Submission"),
          "content_category" := Str("General Inquiry"),
          "value" := Num(1),
          "currency" := Str("USD"),
          "name" := Str("Ann")]
  {
  }

  /** A non-empty service becomes the content category. */
  lemma LeadPayloadUsesService(parameters: Payload, service: string)
    requires service != "" && "content_category" !in parameters
    requires "service" in parameters && parameters["service"] == Str(service)
    ensures LeadPayload(parameters)["content_category"] == Str(service)
  {
  }

  /** A field the caller passes as `undefined` is not dropped: it reaches the Lead payload as `undefined`. */
  lemma LeadPayloadKeepsUndefinedFields(parameters: Payload, key: string)
    requires key in parameters && parameters[key] == Undefined
    ensures key in LeadPayload(parameters) && LeadPayload(parameters)[key] == Undefined
  {
  }
}
