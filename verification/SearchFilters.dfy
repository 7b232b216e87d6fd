/**
 The filters of the radar and library pages as they live in the query string.
 set and delete are those of the URLSearchParams class, section 6.2 of the
 WHATWG URL Standard.
 */
module SearchFilters {
  import opened Wrappers

  datatype Param = Param(name: string, value: string)

  type Query = seq<Param>

  // --- URLSearchParams -----------------------------------------------------------------------

  /** The value of the first pair with that name. */
  function Get(q: Query, name: string): Option<string> {
    if q == [] then None else if q[0].name == name then Some(q[0].value) else Get(q[1..], name)
  }

  function Delete(q: Query, name: string): Query {
    if q == [] then [] else if q[0].name == name then Delete(q[1..], name) else [q[0]] + Delete(q[1..], name)
  }

  /** The first pair gets the value and the others go; without one the pair is appended. */
  function Set(q: Query, name: string, value: string): Query {
    if q == [] then [Param(name, value)]
    else if q[0].name == name then [Param(name, value)] + Delete(q[1..], name)
    else [q[0]] + Set(q[1..], name, value)
  }

  /** The pairs with other names, in order. */
  function Without(q: Query, names: set<string>): Query {
    if q == [] then [] else if q[0].name in names then Without(q[1..], names) else [q[0]] + Without(q[1..], names)
  }

  lemma {:induction false} GetDelete(q: Query, name: string, other: string)
    ensures Get(Delete(q, name), other) == if other == name then None else Get(q, other)
  {
    if q != [] {
      GetDelete(q[1..], name, other);
    }
  }

  lemma {:induction false} GetSet(q: Query, name: string, value: string, other: string)
    ensures Get(Set(q, name, value), other) == if other == name then Some(value) else Get(q, other)
  {
    if q != [] {
      if q[0].name == name {
        GetDelete(q[1..], name, other);
      } else {
        GetSet(q[1..], name, value, other);
      }
    }
  }

  lemma {:induction false} DeleteKeepsOthers(q: Query, name: string, names: set<string>)
    requires name in names
    ensures Without(Delete(q, name), names) == Without(q, names)
  {
    if q != [] {
      DeleteKeepsOthers(q[1..], name, names);
    }
  }

  lemma {:induction false} SetKeepsOthers(q: Query, name: string, value: string, names: set<string>)
    requires name in names
    ensures Without(Set(q, name, value), names) == Without(q, names)
  {
    if q != [] {
      if q[0].name == name {
        DeleteKeepsOthers(q[1..], name, names);
      } else {
        SetKeepsOthers(q[1..], name, value, names);
      }
    }
  }

  /** out.set or out.delete, whichever the filter asks for. */
  function Put(q: Query, name: string, value: Option<string>): Query {
    if value.Some? then Set(q, name, value.value) else Delete(q, name)
  }

  lemma GetPut(q: Query, name: string, value: Option<string>, other: string)
    ensures Get(Put(q, name, value), other) == if other == name then value else Get(q, other)
  {
    if value.Some? { GetSet(q, name, value.value, other); } else { GetDelete(q, name, other); }
  }

  /** How often a name occurs, and where values stand: putting again what is there changes nothing. */
  lemma {:induction false} SetSame(q: Query, name: string, value: string)
    requires Get(q, name) == Some(value) && Single(q, name)
    ensures Set(q, name, value) == q
  {
    if q[0].name == name {
      DeleteAbsent(q[1..], name);
    } else {
      SetSame(q[1..], name, value);
    }
  }

  lemma {:induction false} DeleteAbsent(q: Query, name: string)
    requires Get(q, name) == None
    ensures Delete(q, name) == q
  {
    if q != [] {
      DeleteAbsent(q[1..], name);
    }
  }

  /** No name twice. */
  predicate Single(q: Query, name: string) {
    q == [] || (if q[0].name == name then Get(q[1..], name) == None else Single(q[1..], name))
  }

  lemma {:induction false} AbsentSingle(q: Query, name: string)
    requires Get(q, name) == None
    ensures Single(q, name)
  {
    if q != [] {
      AbsentSingle(q[1..], name);
    }
  }

  lemma {:induction false} DeleteSingle(q: Query, name: string, other: string)
    requires Single(q, other) || name == other
    ensures Single(Delete(q, name), other)
  {
    if q != [] {
      if q[0].name != name && q[0].name == other {
        GetDelete(q[1..], name, other);
      } else {
        DeleteSingle(q[1..], name, other);
      }
    }
  }

  lemma {:induction false} SetSingle(q: Query, name: string, value: string, other: string)
    requires Single(q, other) || name == other
    ensures Single(Set(q, name, value), other)
  {
    if q != [] {
      if q[0].name == name {
        GetDelete(q[1..], name, other);
        if name != other { DeleteSingle(q[1..], name, other); }
      } else if q[0].name == other {
        GetSet(q[1..], name, value, other);
      } else {
        SetSingle(q[1..], name, value, other);
      }
    }
  }

  lemma PutSingle(q: Query, name: string, value: Option<string>, other: string)
    requires Single(q, other) || name == other
    ensures Single(Put(q, name, value), other)
  {
    if value.Some? { SetSingle(q, name, value.value, other); } else { DeleteSingle(q, name, other); }
  }

  lemma PutSame(q: Query, name: string, value: Option<string>)
    requires Get(q, name) == value && Single(q, name)
    ensures Put(q, name, value) == q
  {
    if value.Some? { SetSame(q, name, value.value); } else { DeleteAbsent(q, name); }
  }

  /** Two different names put once more: nothing changes. */
  lemma PutBothTwice(q: Query, a: string, x: Option<string>, b: string, y: Option<string>)
    requires a != b
    ensures var once := Put(Put(q, a, x), b, y); Put(Put(once, a, x), b, y) == once
  {
    var first := Put(q, a, x);
    var once := Put(first, b, y);
    GetPut(q, a, x, a);
    GetPut(first, b, y, a);
    GetPut(first, b, y, b);
    PutSingle(q, a, x, a);
    PutSingle(first, b, y, a);
    PutSingle(first, b, y, b);
    PutSame(once, a, x);
    PutSame(once, b, y);
  }

  lemma PutKeepsOthers(q: Query, name: string, value: Option<string>, names: set<string>)
    requires name in names
    ensures Without(Put(q, name, value), names) == Without(q, names)
  {
    if value.Some? { SetKeepsOthers(q, name, value.value, names); } else { DeleteKeepsOthers(q, name, names); }
  }

  // --- Numbers in the query string ------------------------------------------------------------------

  const MAX_SAFE := 9007199254740991

  function Digit(d: nat): char
    requires d < 10
  {
    ('0' as int + d) as char
  }

  /** String(n) of a natural number within the safe range. */
  function Print(n: nat): string {
    if n < 10 then [Digit(n)] else Print(n / 10) + [Digit(n % 10)]
  }

  predicate Decimal(s: string) {
    s != "" && forall i :: 0 <= i < |s| ==> '0' <= s[i] <= '9'
  }

  function Parse(s: string): nat
    requires forall i :: 0 <= i < |s| ==> '0' <= s[i] <= '9'
  {
    if s == "" then 0 else Parse(s[..|s| - 1]) * 10 + (s[|s| - 1] as int - '0' as int)
  }

  lemma {:induction false} ParsePrint(n: nat)
    ensures Decimal(Print(n)) && Parse(Print(n)) == n
  {
    if n < 10 {
      assert Print(n)[..0] == "";
    } else {
      ParsePrint(n / 10);
      var s := Print(n);
      assert s[..|s| - 1] == Print(n / 10);
    }
  }

  /**
   Number(s) as far as Number.isInteger accepts it: decimal digits within the safe range are exact; every other
   spelling, such as spaces, signs, exponents or hexadecimal, is left to the engine.
   */
  function Number(engine: string -> Option<int>, s: Option<string>): Option<int> {
    if s == None then Some(0)
    else if Decimal(s.value) && Parse(s.value) <= MAX_SAFE then Some(Parse(s.value))
    else engine(s.value)
  }

  // --- The radar inbox ------------------------------------------------------------------------------

  datatype InboxState = New | All

  datatype InboxFilters = InboxFilters(state: InboxState, topicId: Option<int>)

  function ParseInbox(engine: string -> Option<int>, q: Query): InboxFilters {
    var topic := Number(engine, Get(q, "topic"));
    InboxFilters(if Get(q, "state") == Some("all") then All else New,
                 if topic.Some? && topic.value > 0 then topic else None)
  }

  function InboxStateParam(f: InboxFilters): Option<string> {
    if f.state == All then Some("all") else None
  }

  function TopicParam(f: InboxFilters): Option<string>
    requires f.topicId.Some? ==> f.topicId.value >= 0
  {
    if f.topicId.Some? then Some(Print(f.topicId.value)) else None
  }

  function NextInbox(q: Query, f: InboxFilters): Query
    requires f.topicId.Some? ==> f.topicId.value >= 0
  {
    Put(Put(q, "state", InboxStateParam(f)), "topic", TopicParam(f))
  }

  predicate ValidInbox(f: InboxFilters) {
    f.topicId.Some? ==> 1 <= f.topicId.value <= MAX_SAFE
  }

  /** Parsing what was printed gives the filter back, whatever the query held before. */
  lemma InboxRoundTrip(engine: string -> Option<int>, q: Query, f: InboxFilters)
    requires ValidInbox(f)
    ensures ParseInbox(engine, NextInbox(q, f)) == f
  {
    var mid := Put(q, "state", InboxStateParam(f));
    GetPut(q, "state", InboxStateParam(f), "state");
    GetPut(mid, "topic", TopicParam(f), "state");
    GetPut(mid, "topic", TopicParam(f), "topic");
    if f.topicId.Some? { ParsePrint(f.topicId.value); }
  }

  /** Printing the same filter again changes nothing, and every other parameter keeps its place. */
  lemma InboxPrintsOnce(q: Query, f: InboxFilters)
    requires ValidInbox(f)
    ensures NextInbox(NextInbox(q, f), f) == NextInbox(q, f)
    ensures Without(NextInbox(q, f), {"state", "topic"}) == Without(q, {"state", "topic"})
  {
    PutBothTwice(q, "state", InboxStateParam(f), "topic", TopicParam(f));
    PutKeepsOthers(q, "state", InboxStateParam(f), {"state", "topic"});
    PutKeepsOthers(Put(q, "state", InboxStateParam(f)), "topic", TopicParam(f), {"state", "topic"});
  }

  // --- The library ------------------------------------------------------------------------------------

  datatype FilterState = AllItems | Read | Archived

  datatype FilterParams = FilterParams(state: Option<FilterState>, favorite: Option<bool>)

  function StateName(s: FilterState): string {
    match s
    case AllItems => "all"
    case Read => "read"
    case Archived => "archived"
  }

  function StateNamed(s: Option<string>): Option<FilterState> {
    if s == Some("all") then Some(AllItems) else if s == Some("read") then Some(Read)
    else if s == Some("archived") then Some(Archived) else None
  }

  function ParseLibrary(q: Query): FilterParams {
    FilterParams(StateNamed(Get(q, "state")), if Get(q, "favorite") == Some("true") then Some(true) else None)
  }

  function LibraryStateParam(f: FilterParams): Option<string> {
    if f.state.Some? then Some(StateName(f.state.value)) else None
  }

  function FavoriteParam(f: FilterParams): Option<string> {
    if f.favorite == Some(true) then Some("true") else None
  }

  function NextLibrary(q: Query, f: FilterParams): Query {
    Put(Put(q, "state", LibraryStateParam(f)), "favorite", FavoriteParam(f))
  }

  /** An explicit false favorite is printed like an absent one and so read as unset. */
  function Canonical(f: FilterParams): FilterParams {
    if f.favorite == Some(false) then f.(favorite := None) else f
  }

  lemma StateNameBack(s: FilterState)
    ensures StateNamed(Some(StateName(s))) == Some(s)
  {
    assert |"all"| == 3 && |"read"| == 4 && |"archived"| == 8;
  }

  lemma LibraryRoundTrip(q: Query, f: FilterParams)
    ensures ParseLibrary(NextLibrary(q, f)) == Canonical(f)
  {
    var mid := Put(q, "state", LibraryStateParam(f));
    GetPut(q, "state", LibraryStateParam(f), "state");
    GetPut(mid, "favorite", FavoriteParam(f), "state");
    GetPut(mid, "favorite", FavoriteParam(f), "favorite");
    if f.state.Some? { StateNameBack(f.state.value); }
    match f.favorite
    case None =>
    case Some(b) => assert f.favorite == Some(true) || f.favorite == Some(false);
  }

  lemma LibraryPrintsOnce(q: Query, f: FilterParams)
    ensures NextLibrary(NextLibrary(q, f), f) == NextLibrary(q, f)
    ensures Without(NextLibrary(q, f), {"state", "favorite"}) == Without(q, {"state", "favorite"})
  {
    PutBothTwice(q, "state", LibraryStateParam(f), "favorite", FavoriteParam(f));
    PutKeepsOthers(q, "state", LibraryStateParam(f), {"state", "favorite"});
    PutKeepsOthers(Put(q, "state", LibraryStateParam(f)), "favorite", FavoriteParam(f), {"state", "favorite"});
  }
}
