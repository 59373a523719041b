/**
 * JoinCallOptions: a fluent option holder. The two string properties are
 * stored as given (null included). The two array properties are normalised
 * from null to an empty array and copied both when stored and when handed out,
 * so a caller never shares the stored array.
 */
module CallingServerModels {
  import opened JavaLang

  /** An expandable string enumeration of call modalities (audio, video, ...). */
  datatype CallModality = CallModality(name: string)

  /** An expandable string enumeration of call event subscriptions. */
  datatype EventSubscriptionType = EventSubscriptionType(name: string)

  /** `array.clone()`: a new array with the same elements. */
  method Clone<T>(a: array<T>) returns (c: array<T>)
    ensures fresh(c)
    ensures c[..] == a[..]
  {
    c := new T[a.Length](i requires 0 <= i < a.Length reads a => a[i]);
  }

  /** The contents a nullable array property stands for: nothing when null. */
  ghost function ContentsOrEmpty<T>(a: array?<T>): seq<T>
    reads a
  {
    if a == null then [] else a[..]
  }

  class JoinCallOptions {
    var subject: Nullable<string>
    var callbackUri: Nullable<string>
    var requestedModalities: array?<CallModality>
    var requestedCallEvents: array?<EventSubscriptionType>

    /** The requested modalities as a caller observes them through the getter. */
    ghost function Modalities(): seq<CallModality>
      reads this, requestedModalities
    {
      ContentsOrEmpty(requestedModalities)
    }

    /** The requested call events as a caller observes them through the getter. */
    ghost function CallEvents(): seq<EventSubscriptionType>
      reads this, requestedCallEvents
    {
      ContentsOrEmpty(requestedCallEvents)
    }

    constructor ()
      ensures subject == Null && callbackUri == Null
      ensures requestedModalities == null && requestedCallEvents == null
      ensures Modalities() == [] && CallEvents() == []
    {
      subject, callbackUri := Null, Null;
      requestedModalities, requestedCallEvents := null, null;
    }

    method GetSubject() returns (r: Nullable<string>)
      ensures r == subject
    {
      return subject;
    }

    method SetSubject(subject: Nullable<string>) returns (self: JoinCallOptions)
      modifies this`subject
      ensures self == this && this.subject == subject
    {
      this.subject := subject;
      return this;
    }

    method GetCallbackUri() returns (r: Nullable<string>)
      ensures r == callbackUri
    {
      return callbackUri;
    }

    method SetCallbackUri(callbackUri: Nullable<string>) returns (self: JoinCallOptions)
      modifies this`callbackUri
      ensures self == this && this.callbackUri == callbackUri
    {
      this.callbackUri := callbackUri;
      return this;
    }

    /** Hands out a fresh copy of the stored modalities; an empty array when none were set. */
    method GetRequestedModalities() returns (r: array<CallModality>)
      ensures fresh(r)
      ensures r[..] == Modalities()
    {
      if requestedModalities == null {
        r := new CallModality[0];
      } else {
        r := Clone(requestedModalities);
      }
    }

    /** Stores a fresh copy of the given modalities; null stores an empty array. */
    method SetRequestedModalities(requestedModalities: array?<CallModality>) returns (self: JoinCallOptions)
      modifies this`requestedModalities
      ensures self == this
      ensures this.requestedModalities != null && fresh(this.requestedModalities)
      ensures Modalities() == ContentsOrEmpty(requestedModalities)
    {
      if requestedModalities == null {
        this.requestedModalities := new CallModality[0];
      } else {
        this.requestedModalities := Clone(requestedModalities);
      }
      return this;
    }

    /** Hands out a fresh copy of the stored call events; an empty array when none were set. */
    method GetRequestedCallEvents() returns (r: array<EventSubscriptionType>)
      ensures fresh(r)
      ensures r[..] == CallEvents()
    {
      if requestedCallEvents == null {
        r := new EventSubscriptionType[0];
      } else {
        r := Clone(requestedCallEvents);
      }
    }

    /** Stores a fresh copy of the given call events; null stores an empty array. */
    method SetRequestedCallEvents(requestedCallEvents: array?<EventSubscriptionType>) returns (self: JoinCallOptions)
      modifies this`requestedCallEvents
      ensures self == this
      ensures this.requestedCallEvents != null && fresh(this.requestedCallEvents)
      ensures CallEvents() == ContentsOrEmpty(requestedCallEvents)
    {
      if requestedCallEvents == null {
        this.requestedCallEvents := new EventSubscriptionType[0];
      } else {
        this.requestedCallEvents := Clone(requestedCallEvents);
      }
      return this;
    }
  }

  // ------------------------------------------------------------ what callers can rely on

  /**
   * After storing a caller's array, overwriting that array's elements does not
   * change what the getter hands out.
   */
  method CallerArrayNotShared(options: JoinCallOptions, modalities: array<CallModality>, replacement: CallModality)
    returns (observed: seq<CallModality>)
    requires modalities.Length > 0
    modifies options, modalities
    ensures observed == old(modalities[..])
  {
    var _ := options.SetRequestedModalities(modalities);
    modalities[0] := replacement;
    var got := options.GetRequestedModalities();
    observed := got[..];
  }

  /**
   * Overwriting the elements of an array the getter handed out does not change
   * what the getter hands out next.
   */
  method ReturnedArrayNotShared(options: JoinCallOptions, replacement: EventSubscriptionType)
    returns (first: seq<EventSubscriptionType>, second: seq<EventSubscriptionType>)
    modifies options
    ensures first == second == old(options.CallEvents())
  {
    var handedOut := options.GetRequestedCallEvents();
    first := handedOut[..];
    if handedOut.Length > 0 {
      handedOut[0] := replacement;
    }
    var again := options.GetRequestedCallEvents();
    second := again[..];
  }

  /** A never-set array property reads as empty, and storing null reads back as empty. */
  method NullArraysReadAsEmpty() returns (before: seq<CallModality>, after: seq<CallModality>)
    ensures before == [] && after == []
  {
    var options := new JoinCallOptions();
    var got := options.GetRequestedModalities();
    before := got[..];
    var _ := options.SetRequestedModalities(null);
    got := options.GetRequestedModalities();
    after := got[..];
  }

  /**
   * Each setter changes only its own property: setting the subject and the
   * callback URI leaves the stored arrays and their contents alone, and a get
   * after a set returns the value just set, null included.
   */
  method SettersAreIndependent(options: JoinCallOptions, subject: Nullable<string>, callbackUri: Nullable<string>)
    returns (gotSubject: Nullable<string>, gotCallbackUri: Nullable<string>)
    modifies options
    ensures gotSubject == subject && gotCallbackUri == callbackUri
    ensures options.requestedModalities == old(options.requestedModalities)
    ensures options.requestedCallEvents == old(options.requestedCallEvents)
    ensures options.Modalities() == old(options.Modalities())
    ensures options.CallEvents() == old(options.CallEvents())
  {
    var self := options.SetSubject(subject);
    self := self.SetCallbackUri(callbackUri);
    gotSubject := options.GetSubject();
    gotCallbackUri := options.GetCallbackUri();
  }
}
