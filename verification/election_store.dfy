/**
 The client-side election store: a state container with two fields,
 `elections` (lists of elections by category) and `pendingCandidates` (the
 candidate applications submitted so far, newest first), and the four
 operations that read and update them.

 The bundled election fixture is a value given when the store is created;
 the two clock readings an application needs are parameters of the submit
 operation.
 */
module ElectionStore {
  import opened JsValue

  /** Elections by category ("active", "upcoming", "past", ...). */
  type Elections = map<string, seq<Record>>

  /** The store's state: its two fields. */
  datatype StoreState = StoreState(elections: Elections, pendingCandidates: seq<Record>)

  /** `elections[category]`, with a missing category read as no elections. */
  function Category(elections: Elections, category: string): seq<Record>
  {
    if category in elections then elections[category] else []
  }

  /** The state a new store starts in: three empty categories, no applications. */
  function Initial(): (s: StoreState)
    ensures s.elections.Keys == {"active", "upcoming", "past"}
    ensures forall c :: Category(s.elections, c) == []
    ensures s.pendingCandidates == []
  {
    StoreState(map["active" := [], "upcoming" := [], "past" := []], [])
  }

  // ---------------------------------------------------------------------
  // getElectionById
  // ---------------------------------------------------------------------

  /** The test `el.id === id` of the lookup. */
  predicate HasId(el: Record, id: Primitive)
  {
    Get(el, "id") == id
  }

  /** The index of the first element with the given id, or |list| if there is none. */
  function FirstMatch(list: seq<Record>, id: Primitive): (k: nat)
    ensures k <= |list|
    ensures forall j | 0 <= j < k :: !HasId(list[j], id)
    ensures k < |list| ==> HasId(list[k], id)
    decreases |list|
  {
    if list == [] then 0
    else if HasId(list[0], id) then 0
    else 1 + FirstMatch(list[1..], id)
  }

  /** `list.find((el) => el.id === id)`. */
  function Find(list: seq<Record>, id: Primitive): (r: Option<Record>)
    ensures r.None? <==> forall j | 0 <= j < |list| :: !HasId(list[j], id)
    ensures r.Some? ==>
      exists k | 0 <= k < |list| ::
        list[k] == r.value && HasId(list[k], id) && forall j | 0 <= j < k :: !HasId(list[j], id)
  {
    var k := FirstMatch(list, id);
    if k < |list| then Some(list[k]) else None
  }

  /**
   getElectionById(category, id): search the store's own elections when its
   list for the category is non-empty, otherwise the bundled fixture; a
   category missing from the searched source gives nothing.
   */
  function Lookup(s: StoreState, bundled: Elections, category: string, id: Primitive): (r: Option<Record>)
    ensures |Category(s.elections, category)| > 0 ==> r == Find(s.elections[category], id)
    ensures |Category(s.elections, category)| == 0 ==> r == Find(Category(bundled, category), id)
  {
    var src := if |Category(s.elections, category)| > 0 then s.elections else bundled;
    if category in src then Find(src[category], id) else None
  }

  // ---------------------------------------------------------------------
  // submitCandidateApplication
  // ---------------------------------------------------------------------

  /**
   The default id `${electionId}-${Date.now()}`: the printed election id, a
   '-', then the decimal digits of the clock reading (no leading zero).
   Only defined for an election id the template literal can print.
   */
  function DefaultId(electionId: Value, now: Millis): (r: string)
    requires Printable(electionId)
    ensures var p := ToStr(electionId);
      && |r| > |p| + 1
      && r[..|p|] == p
      && r[|p|] == '-'
      && AllDigits(r[|p| + 1..])
      && (|r| > |p| + 2 ==> r[|p| + 1] != '0')
      && ParseDecimal(r[|p| + 1..]) == now
  {
    var p, d := ToStr(electionId), NatToDecimal(now);
    DecimalRoundTrip(now);
    assert (p + "-" + d)[|p| + 1..] == d;
    assert (p + "-" + d)[..|p|] == p;
    p + "-" + d
  }

  /** The position of the last '-' in `s`, if any. */
  function LastDash(s: string): (r: Option<nat>)
    ensures r.Some? ==> r.value < |s| && s[r.value] == '-'
    ensures r.Some? ==> forall j | r.value < j < |s| :: s[j] != '-'
    ensures r.None? ==> forall j | 0 <= j < |s| :: s[j] != '-'
    decreases |s|
  {
    if s == [] then None
    else if s[|s| - 1] == '-' then Some(|s| - 1)
    else LastDash(s[..|s| - 1])
  }

  /**
   Splits a default id back into the string form of its election id and its
   timestamp: the timestamp is the digits after the last '-'.
   */
  function ParseDefaultId(id: string): Option<(string, nat)>
  {
    match LastDash(id)
    case None => None
    case Some(k) =>
      var digits := id[k + 1..];
      if |digits| >= 1 && AllDigits(digits) then Some((id[..k], ParseDecimal(digits))) else None
  }

  lemma DefaultIdRoundTrip(electionId: Value, now: Millis)
    requires Printable(electionId)
    ensures ParseDefaultId(DefaultId(electionId, now)) == Some((ToStr(electionId), now))
  {
    var p, d := ToStr(electionId), NatToDecimal(now);
    var id := DefaultId(electionId, now);
    assert id[|p|] == '-';
    forall j | |p| < j < |id| ensures id[j] != '-' {
      assert id[j] == d[j - |p| - 1];
    }
    assert LastDash(id) == Some(|p|);
    assert id[|p| + 1..] == d;
    assert id[..|p|] == p;
    DecimalRoundTrip(now);
  }

  /**
   Two default ids coincide exactly when the election ids print the same and
   the two clock readings are equal.
   */
  lemma DefaultIdInjective(e1: Value, t1: Millis, e2: Value, t2: Millis)
    requires Printable(e1) && Printable(e2)
    ensures DefaultId(e1, t1) == DefaultId(e2, t2) <==> ToStr(e1) == ToStr(e2) && t1 == t2
  {
    DefaultIdRoundTrip(e1, t1);
    DefaultIdRoundTrip(e2, t2);
  }

  /**
   The application `{ id, electionId, status: "pending", submittedAt, ...payload }`:
   every property of the payload wins over the defaults, including one whose
   value is `undefined`. The default id is built before the payload is spread,
   so an election id that cannot be printed makes the call throw whatever the
   payload holds (see Store.SubmitCandidateApplication).
   */
  function NewApplication(electionId: Value, payload: Record, now: Millis, submittedAt: string): (app: Record)
    requires Printable(electionId)
    ensures app.Keys == payload.Keys + {"id", "electionId", "status", "submittedAt"}
    ensures forall k | k in payload :: app[k] == payload[k]
    ensures "id" !in payload ==> app["id"] == Str(DefaultId(electionId, now))
    ensures "electionId" !in payload ==> app["electionId"] == electionId
    ensures "status" !in payload ==> app["status"] == Str("pending")
    ensures "submittedAt" !in payload ==> app["submittedAt"] == Str(submittedAt)
  {
    map[
      "id" := Str(DefaultId(electionId, now)),
      "electionId" := electionId,
      "status" := Str("pending"),
      "submittedAt" := Str(submittedAt)
    ] + payload
  }

  // ---------------------------------------------------------------------
  // State transitions
  // ---------------------------------------------------------------------

  /** fetchElections: the elections become the fixture. */
  function Fetched(s: StoreState, bundled: Elections): (t: StoreState)
    ensures t.elections == bundled
    ensures t.pendingCandidates == s.pendingCandidates
  {
    s.(elections := bundled)
  }

  /** submitCandidateApplication: the application goes in front of the pending list. */
  function Submitted(s: StoreState, app: Record): (t: StoreState)
    ensures t.elections == s.elections
    ensures |t.pendingCandidates| == |s.pendingCandidates| + 1
    ensures t.pendingCandidates[0] == app && t.pendingCandidates[1..] == s.pendingCandidates
  {
    s.(pendingCandidates := [app] + s.pendingCandidates)
  }

  lemma FetchIdempotent(s: StoreState, bundled: Elections)
    ensures Fetched(Fetched(s, bundled), bundled) == Fetched(s, bundled)
  {
  }

  /** The store's two state-changing calls. */
  datatype Op =
    | Fetch
    | Submit(electionId: Value, payload: Record, now: Millis, submittedAt: string)

  /** One call; a submit that throws leaves the state as it was. */
  function Step(s: StoreState, bundled: Elections, op: Op): (t: StoreState)
  {
    match op
    case Fetch => Fetched(s, bundled)
    case Submit(e, p, now, at) =>
      if Printable(e) then Submitted(s, NewApplication(e, p, now, at)) else s
  }

  /** The state after the calls `ops`, in order. */
  function Run(s: StoreState, bundled: Elections, ops: seq<Op>): (t: StoreState)
    decreases |ops|
  {
    if ops == [] then s else Run(Step(s, bundled, ops[0]), bundled, ops[1..])
  }

  /** The applications the submit calls among `ops` that do not throw build, in call order. */
  function Applications(ops: seq<Op>): (apps: seq<Record>)
    decreases |ops|
  {
    if ops == [] then []
    else
      var rest := Applications(ops[1..]);
      match ops[0]
      case Fetch => rest
      case Submit(e, p, now, at) =>
        if Printable(e) then [NewApplication(e, p, now, at)] + rest else rest
  }

  function Reverse<T>(xs: seq<T>): (r: seq<T>)
    ensures |r| == |xs|
    ensures forall i | 0 <= i < |xs| :: r[i] == xs[|xs| - 1 - i]
    decreases |xs|
  {
    if xs == [] then [] else Reverse(xs[1..]) + [xs[0]]
  }

  predicate HasFetch(ops: seq<Op>)
  {
    exists i | 0 <= i < |ops| :: ops[i].Fetch?
  }

  /**
   The pending list after any sequence of calls is every application
   submitted by a call that did not throw, newest first, in front of the list there was before: nothing is
   filtered, reordered or dropped.
   */
  lemma {:induction false} RunPending(s: StoreState, bundled: Elections, ops: seq<Op>)
    ensures Run(s, bundled, ops).pendingCandidates == Reverse(Applications(ops)) + s.pendingCandidates
    decreases |ops|
  {
    if ops != [] {
      var t := Step(s, bundled, ops[0]);
      assert Run(s, bundled, ops) == Run(t, bundled, ops[1..]);
      RunPending(t, bundled, ops[1..]);
      var rest := Applications(ops[1..]);
      if ops[0].Submit? && Printable(ops[0].electionId) {
        var app := NewApplication(ops[0].electionId, ops[0].payload, ops[0].now, ops[0].submittedAt);
        assert Applications(ops) == [app] + rest;
        assert t.pendingCandidates == [app] + s.pendingCandidates;
        PrependReversed(rest, app, s.pendingCandidates);
      } else {
        assert Applications(ops) == rest;
        assert t.pendingCandidates == s.pendingCandidates;
      }
    }
  }

  /** Moving the newest application from the front of the pending list to the reversed history. */
  lemma PrependReversed(rest: seq<Record>, app: Record, pending: seq<Record>)
    ensures Reverse([app] + rest) + pending == Reverse(rest) + ([app] + pending)
  {
    assert ([app] + rest)[1..] == rest;
    assert Reverse([app] + rest) == Reverse(rest) + [app];
    assert (Reverse(rest) + [app]) + pending == Reverse(rest) + ([app] + pending);
  }

  /**
   The elections after any sequence of calls are the fixture if one of the
   calls was a fetch, and are untouched otherwise.
   */
  lemma {:induction false} RunElections(s: StoreState, bundled: Elections, ops: seq<Op>)
    ensures Run(s, bundled, ops).elections == if HasFetch(ops) then bundled else s.elections
    decreases |ops|
  {
    if ops != [] {
      var t := Step(s, bundled, ops[0]);
      RunElections(t, bundled, ops[1..]);
      if ops[0].Fetch? {
        assert HasFetch(ops);
        if !HasFetch(ops[1..]) {
          assert t.elections == bundled;
        }
      } else {
        assert t.elections == s.elections;
        assert HasFetch(ops) == HasFetch(ops[1..]) by {
          if HasFetch(ops) {
            var i :| 0 <= i < |ops| && ops[i].Fetch?;
            assert i > 0 && ops[1..][i - 1] == ops[i];
          }
          if HasFetch(ops[1..]) {
            var i :| 0 <= i < |ops[1..]| && ops[1..][i].Fetch?;
            assert ops[i + 1] == ops[1..][i];
          }
        }
      }
    }
  }

  /**
   From a new store, getElectionById gives the same answer whether or not
   fetchElections has been called, and however many applications were
   submitted: it is always the first match in the fixture's list.
   */
  lemma LookupAfterRun(bundled: Elections, ops: seq<Op>, category: string, id: Primitive)
    ensures Lookup(Run(Initial(), bundled, ops), bundled, category, id) == Find(Category(bundled, category), id)
  {
    RunElections(Initial(), bundled, ops);
  }

  // ---------------------------------------------------------------------
  // The store object
  // ---------------------------------------------------------------------

  class Store {
    /** The bundled election fixture. */
    const bundled: Elections
    var elections: Elections
    var pendingCandidates: seq<Record>

    function State(): StoreState
      reads this
    {
      StoreState(elections, pendingCandidates)
    }

    constructor (data: Elections)
      ensures bundled == data
      ensures State() == Initial()
    {
      bundled := data;
      elections := Initial().elections;
      pendingCandidates := [];
    }

    method FetchElections()
      modifies this
      ensures State() == Fetched(old(State()), bundled)
    {
      elections := bundled;
    }

    function GetElectionById(category: string, id: Primitive): (r: Option<Record>)
      reads this
      ensures |Category(elections, category)| > 0 ==> r == Find(elections[category], id)
      ensures |Category(elections, category)| == 0 ==> r == Find(Category(bundled, category), id)
    {
      Lookup(State(), bundled, category, id)
    }

    /**
     Returns the new application's id, or None where the source throws a
     TypeError (an election id the template literal cannot print); a call
     that throws changes nothing.
     */
    method SubmitCandidateApplication(electionId: Value, payload: Record, now: Millis, submittedAt: string)
      returns (r: Option<Value>)
      modifies this
      ensures r.None? <==> !Printable(electionId)
      ensures r.None? ==> State() == old(State())
      ensures r.Some? ==>
        && State() == Submitted(old(State()), NewApplication(electionId, payload, now, submittedAt))
        && r.value == Get(pendingCandidates[0], "id")
        && r.value == if "id" in payload then payload["id"] else Str(DefaultId(electionId, now))
    {
      if !Printable(electionId) {
        return None;
      }
      var application := NewApplication(electionId, payload, now, submittedAt);
      pendingCandidates := [application] + pendingCandidates;
      r := Some(Get(application, "id"));
    }

    function GetPendingCandidates(): (r: seq<Record>)
      reads this
      ensures r == State().pendingCandidates
    {
      pendingCandidates
    }
  }
}
