/** The options object that `connect` hands to `navigator.bluetooth.requestDevice`,
    and how it is built from the filters a session was created with: one filter
    entry per given constraint, the `services` constraint cut down to the
    adopted services, and the optional services either the whole service list
    or, when the caller names some, none (the unknown names are appended to the
    shared service list instead). */
module Request {
  import opened Values

  /** One entry of `requestParams.filters`. */
  datatype Filter =
    | NameFilter(name: JsString)
    | NamePrefixFilter(namePrefix: JsString)
    | UuidFilter(uuid: JsString)
    | ServicesFilter(services: seq<JsString>)

  /** The argument of `requestDevice`: the filter entries, and `optionalServices`
      when it is set. */
  datatype RequestOptions = RequestOptions(filters: seq<Filter>, optionalServices: Option<seq<JsString>>)

  /** The object a session is created with. Each field is None when the object
      has no such property; `otherKeys` counts the properties the session does
      not read. The library reads `optional_services`, the earlier draft reads
      `optionalServices`. */
  datatype Filters = Filters(
    name: Option<JsString>,
    namePrefix: Option<JsString>,
    uuid: Option<JsString>,
    services: Option<seq<JsString>>,
    optionalServices: Option<seq<JsString>>,
    underscoredOptionalServices: Option<seq<JsString>>,
    otherKeys: nat)
  {
    /** `Object.keys(filters).length`. */
    function KeyCount(): nat {
      (if name.Some? then 1 else 0) + (if namePrefix.Some? then 1 else 0)
        + (if uuid.Some? then 1 else 0) + (if services.Some? then 1 else 0)
        + (if optionalServices.Some? then 1 else 0)
        + (if underscoredOptionalServices.Some? then 1 else 0) + otherKeys
    }
  }

  /** A string property is truthy when it is present and not empty. */
  predicate Given(s: Option<JsString>) {
    s.Some? && s.value != []
  }

  predicate IsLowerHex(c: CodeUnit) {
    '0' <= c <= '9' || 'a' <= c <= 'f'
  }

  /** The library's UUID pattern, `^` then 8, 4 and 4 lower-case hex digits
      separated by dashes, a dash, and one more hex digit: only the first 20
      characters are constrained, and nothing is said about the rest. */
  predicate UuidMatches(s: JsString) {
    && |s| >= 20
    && (forall i | 0 <= i < 20 && i != 8 && i != 13 && i != 18 :: IsLowerHex(s[i]))
    && s[8] == '-' && s[13] == '-' && s[18] == '-'
  }

  /** A canonical UUID matches, and so does any string that starts like one. */
  lemma UuidExamples()
    ensures UuidMatches("0000180d-0000-1000-8000-00805f9b34fb")
    ensures UuidMatches("0000180d-0000-1000-8")
    ensures !UuidMatches("0000180D-0000-1000-8000-00805f9b34fb")
    ensures !UuidMatches("heart_rate")
  {
    var upper: JsString := "0000180D-0000-1000-8000-00805f9b34fb";
    assert !IsLowerHex(upper[7]);
  }

  // ---------------------------------------------------------------------
  // The services constraint
  // ---------------------------------------------------------------------

  /** The requested services that are in the list, in request order. */
  function KnownServices(requested: seq<JsString>, list: seq<JsString>): (r: seq<JsString>)
    ensures |r| <= |requested|
  {
    if requested == [] then []
    else
      var last := requested[|requested| - 1];
      KnownServices(requested[..|requested| - 1], list) + (if last in list then [last] else [])
  }

  /** The requested services that are not in the list, each of which draws a
      warning. */
  function DroppedServices(requested: seq<JsString>, list: seq<JsString>): (r: seq<JsString>)
    ensures |r| <= |requested|
  {
    if requested == [] then []
    else
      var last := requested[|requested| - 1];
      DroppedServices(requested[..|requested| - 1], list) + (if last in list then [] else [last])
  }

  /** The kept services are exactly the requested ones in the list, and the
      dropped ones exactly the requested ones not in it. */
  lemma {:induction false} ServicesMembers(requested: seq<JsString>, list: seq<JsString>, x: JsString)
    ensures x in KnownServices(requested, list) <==> x in requested && x in list
    ensures x in DroppedServices(requested, list) <==> x in requested && x !in list
    decreases |requested|
  {
    if requested != [] {
      var init := requested[..|requested| - 1];
      ServicesMembers(init, list, x);
      assert requested == init + [requested[|requested| - 1]];
    }
  }

  /** One more requested service is either kept or dropped. */
  lemma ServicesStep(requested: seq<JsString>, i: nat, list: seq<JsString>)
    requires i < |requested|
    ensures KnownServices(requested[..i + 1], list)
         == KnownServices(requested[..i], list) + (if requested[i] in list then [requested[i]] else [])
    ensures DroppedServices(requested[..i + 1], list)
         == DroppedServices(requested[..i], list) + (if requested[i] in list then [] else [requested[i]])
  {
    assert requested[..i + 1][..i] == requested[..i];
  }

  /** Filtering distributes over concatenation, so the kept services keep
      their request order. */
  lemma {:induction false} KnownServicesAppend(a: seq<JsString>, b: seq<JsString>, list: seq<JsString>)
    ensures KnownServices(a + b, list) == KnownServices(a, list) + KnownServices(b, list)
    decreases |b|
  {
    if b != [] {
      var init := b[..|b| - 1];
      assert (a + b)[..|a + b| - 1] == a + init;
      KnownServicesAppend(a, init, list);
    } else {
      assert a + b == a;
    }
  }

  /** Every requested service is either kept or dropped. */
  lemma {:induction false} ServicesPartition(requested: seq<JsString>, list: seq<JsString>)
    ensures |KnownServices(requested, list)| + |DroppedServices(requested, list)| == |requested|
    decreases |requested|
  {
    if requested != [] {
      ServicesPartition(requested[..|requested| - 1], list);
    }
  }

  // ---------------------------------------------------------------------
  // The optional services
  // ---------------------------------------------------------------------

  /** The service list after `optional_services` has been walked: each name not
      yet in the list, as the list stands at that point, is appended. */
  function ExtendServices(list: seq<JsString>, extra: seq<JsString>): (r: seq<JsString>)
    ensures |list| <= |r| && r[..|list|] == list
    ensures forall x :: x in r <==> x in list || x in extra
  {
    if extra == [] then list
    else
      var last := extra[|extra| - 1];
      var l := ExtendServices(list, extra[..|extra| - 1]);
      assert forall x :: x in extra <==> x in extra[..|extra| - 1] || x == last;
      if last in l then l else l + [last]
  }

  predicate NoDuplicates(s: seq<JsString>) {
    forall i, j | 0 <= i < j < |s| :: s[i] != s[j]
  }

  /** Extending a list without repetitions gives a list without repetitions. */
  lemma {:induction false} ExtendServicesNoDuplicates(list: seq<JsString>, extra: seq<JsString>)
    requires NoDuplicates(list)
    ensures NoDuplicates(ExtendServices(list, extra))
    decreases |extra|
  {
    if extra != [] {
      ExtendServicesNoDuplicates(list, extra[..|extra| - 1]);
    }
  }

  /** Names already in the list change nothing. */
  lemma {:induction false} ExtendServicesKnown(list: seq<JsString>, extra: seq<JsString>)
    requires forall x | x in extra :: x in list
    ensures ExtendServices(list, extra) == list
    decreases |extra|
  {
    if extra != [] {
      ExtendServicesKnown(list, extra[..|extra| - 1]);
    }
  }

  // ---------------------------------------------------------------------
  // The whole request
  // ---------------------------------------------------------------------

  /** The filter entries the library builds before the services constraint:
      name, then name prefix, then the UUID when it matches. */
  function LeadingFilters(f: Filters): seq<Filter> {
    (if Given(f.name) then [NameFilter(f.name.value)] else [])
      + (if Given(f.namePrefix) then [NamePrefixFilter(f.namePrefix.value)] else [])
      + (if Given(f.uuid) && UuidMatches(f.uuid.value) then [UuidFilter(f.uuid.value)] else [])
  }

  /** The request the library sends, given the service list as it stood when
      `connect` was called, or the reason it sends none. */
  function LibraryRequest(f: Filters, list: seq<JsString>): (r: Result<RequestOptions, Error>)
    ensures r == Err(NoFilters) <==> f.KeyCount() == 0
    ensures r == Err(UuidError) <==> f.KeyCount() != 0 && Given(f.uuid) && !UuidMatches(f.uuid.value)
    ensures r.Ok? ==> r.value.optionalServices == (if f.underscoredOptionalServices.Some? then None else Some(list))
  {
    if f.KeyCount() == 0 then Err(NoFilters)
    else if Given(f.uuid) && !UuidMatches(f.uuid.value) then Err(UuidError)
    else
      var services := if f.services.Some? then [ServicesFilter(KnownServices(f.services.value, list))] else [];
      var optional := if f.underscoredOptionalServices.Some? then None else Some(list);
      Ok(RequestOptions(LeadingFilters(f) + services, optional))
  }

  /** The services constraint the library sends names adopted services only. */
  lemma LibraryRequestAdoptedServices(f: Filters, list: seq<JsString>)
    requires LibraryRequest(f, list).Ok?
    ensures forall i | 0 <= i < |LibraryRequest(f, list).value.filters| ::
      LibraryRequest(f, list).value.filters[i].ServicesFilter? ==>
        forall x | x in LibraryRequest(f, list).value.filters[i].services :: x in list
  {
    if f.services.Some? {
      forall x {
        ServicesMembers(f.services.value, list, x);
      }
    }
  }

  /** One filter entry per truthy constraint, in the order name, name prefix,
      UUID, services: the library keeps the entries in this order whatever
      the constraints are. */
  lemma LibraryFilterOrder(f: Filters, list: seq<JsString>)
    requires LibraryRequest(f, list).Ok?
    ensures var fs := LibraryRequest(f, list).value.filters;
      && |fs| == (if Given(f.name) then 1 else 0) + (if Given(f.namePrefix) then 1 else 0)
                 + (if Given(f.uuid) then 1 else 0) + (if f.services.Some? then 1 else 0)
      && (Given(f.name) ==> fs[0] == NameFilter(f.name.value))
      && (Given(f.namePrefix) ==> fs[if Given(f.name) then 1 else 0] == NamePrefixFilter(f.namePrefix.value))
      && (Given(f.uuid) ==>
            fs[(if Given(f.name) then 1 else 0) + (if Given(f.namePrefix) then 1 else 0)] == UuidFilter(f.uuid.value))
      && (f.services.Some? ==> fs[|fs| - 1] == ServicesFilter(KnownServices(f.services.value, list)))
  {
  }

  /** The request the earlier draft (`acquire` and `Device.connect`) sends:
      no check of the key count or the UUID, the services as given, and the
      caller's optional services or else `fallback`, the value the draft reads
      for the service list (the list itself in `acquire`, nothing in
      `Device.connect`). Without a filter object it sends no filters and no
      optional services. */
  function DraftRequest(f: Option<Filters>, fallback: Option<seq<JsString>>): (r: RequestOptions)
    ensures f.None? ==> r == RequestOptions([], None)
    ensures f.Some? && f.value.optionalServices.Some? ==> r.optionalServices == f.value.optionalServices
    ensures f.Some? && f.value.optionalServices.None? ==> r.optionalServices == fallback
  {
    if f.None? then RequestOptions([], None)
    else
      var g := f.value;
      var filters :=
        (if Given(g.name) then [NameFilter(g.name.value)] else [])
        + (if Given(g.namePrefix) then [NamePrefixFilter(g.namePrefix.value)] else [])
        + (if Given(g.uuid) then [UuidFilter(g.uuid.value)] else [])
        + (if g.services.Some? then [ServicesFilter(g.services.value)] else []);
      RequestOptions(filters, if g.optionalServices.Some? then g.optionalServices else fallback)
  }

  /** Where the library accepts a request whose services are all adopted and
      that matches its UUID pattern, it sends the same filter entries as the
      draft. */
  lemma DraftAgreesOnFilters(f: Filters, list: seq<JsString>, fallback: Option<seq<JsString>>)
    requires LibraryRequest(f, list).Ok?
    requires f.services.Some? ==> forall x | x in f.services.value :: x in list
    ensures LibraryRequest(f, list).value.filters == DraftRequest(Some(f), fallback).filters
  {
    if f.services.Some? {
      KnownServicesAll(f.services.value, list);
    }
  }

  /** Nothing is dropped from a request whose services are all in the list. */
  lemma {:induction false} KnownServicesAll(requested: seq<JsString>, list: seq<JsString>)
    requires forall x | x in requested :: x in list
    ensures KnownServices(requested, list) == requested
    decreases |requested|
  {
    if requested != [] {
      var init := requested[..|requested| - 1];
      KnownServicesAll(init, list);
      assert requested == init + [requested[|requested| - 1]];
    }
  }
}
