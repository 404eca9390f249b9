/** Client and terminal flag of a payload, read twice: by an automaton over the
    parser's events, which keeps no tree, and by lookups in the parsed tree. */
module CleanupMetadata {
  import opened Common

  /** A JSON text. `Float` keeps what converting it to an integer gives. */
  datatype Json = Null | Bool(b: bool) | Int(i: int) | Float(whole: int) | Str(s: string)
                | Arr(items: seq<Json>) | Obj(members: seq<Member>)

  datatype Member = Member(name: string, value: Json)

  datatype Event = ENull | EBool(b: bool) | EInt(i: int) | EFloat | EStr(s: string)
                 | EStartObject | EKey(name: string) | EEndObject | EStartArray | EEndArray

  /** What the parser reports, in document order. */
  function Events(j: Json): seq<Event> {
    match j
    case Null => [ENull]
    case Bool(b) => [EBool(b)]
    case Int(i) => [EInt(i)]
    case Float(_) => [EFloat]
    case Str(s) => [EStr(s)]
    case Arr(items) => [EStartArray] + ItemEvents(items) + [EEndArray]
    case Obj(members) => [EStartObject] + MemberEvents(members) + [EEndObject]
  }

  function ItemEvents(items: seq<Json>): seq<Event> {
    if items == [] then [] else Events(items[0]) + ItemEvents(items[1..])
  }

  function MemberEvents(members: seq<Member>): seq<Event> {
    if members == [] then []
    else [EKey(members[0].name)] + Events(members[0].value) + MemberEvents(members[1..])
  }

  // The tree.

  const CLIENT := "@client_id"
  const TYPE := "@type"
  const AUTH := "authorization_state"
  const UPDATE := "updateAuthorizationState"
  const CLOSED := "authorizationStateClosed"
  const INT_MAX := 0x7FFF_FFFF

  function Find(members: seq<Member>, name: string): Result<Json> {
    if members == [] then Err
    else if members[0].name == name then Ok(members[0].value)
    else Find(members[1..], name)
  }

  /** A conversion to a 32-bit integer keeps the low bits. */
  function Wrap32(v: int): int {
    var low := v % 0x1_0000_0000;
    if low > INT_MAX then low - 0x1_0000_0000 else low
  }

  /** `get<int>()`: numbers and booleans convert, whatever their size. */
  function GetInt(j: Json): Result<int> {
    match j
    case Int(i) => Ok(Wrap32(i))
    case Float(whole) => Ok(Wrap32(whole))
    case Bool(b) => Ok(if b then 1 else 0)
    case _ => Err
  }

  /** `value("@type", "")`: a missing member is empty, a wrong type throws. */
  function TypeName(members: seq<Member>): Result<string> {
    match Find(members, TYPE)
    case Err => Ok("")
    case Ok(Str(s)) => Ok(s)
    case Ok(_) => Err
  }

  datatype Metadata = Metadata(client: int, terminal: bool)

  function Terminal(members: seq<Member>): Result<bool> {
    match TypeName(members)
    case Err => Err
    case Ok(name) =>
      if name != UPDATE then Ok(false)
      else
        match Find(members, AUTH)
        case Ok(Obj(state)) => if TypeName(state).Err? then Err else Ok(TypeName(state).value == CLOSED)
        case _ => Err
  }

  /** The lookups of `JsonSource::receive`; any that throws loses the item. */
  function Dom(j: Json): Result<Metadata> {
    if !j.Obj? then Err
    else
      match Find(j.members, CLIENT)
      case Err => Err
      case Ok(c) =>
        if GetInt(c).Err? || Terminal(j.members).Err? then Err
        else Ok(Metadata(GetInt(c).value, Terminal(j.members).value))
  }

  // The automaton.

  datatype Key = KNone | KClient | KType | KAuth

  datatype State = State(key: Key, depth: int, auth: int, client: int, update: bool, closed: bool)

  const START := State(KNone, 0, 0, 0, false, false)

  function KeyOf(name: string): Key {
    if name == CLIENT then KClient else if name == TYPE then KType else if name == AUTH then KAuth else KNone
  }

  function Step(s: State, e: Event): State {
    match e
    case EInt(i) => if s.depth == 1 && s.key == KClient && 0 < i <= INT_MAX then s.(client := i) else s
    case EStr(v) =>
      var t := if s.key == KType && s.depth == 1 then s.(update := v == UPDATE) else s;
      if s.key == KType && s.auth != 0 && s.depth == s.auth then t.(closed := v == CLOSED) else t
    case EStartObject =>
      s.(auth := if s.depth == 1 && s.key == KAuth then 2 else s.auth, depth := s.depth + 1, key := KNone)
    case EKey(name) => s.(key := KeyOf(name))
    case EEndObject =>
      s.(auth := if s.depth == s.auth then 0 else s.auth, depth := s.depth - 1, key := KNone)
    case EStartArray => s.(depth := s.depth + 1, key := KNone)
    case EEndArray => s.(depth := s.depth - 1, key := KNone)
    case _ => s
  }

  function Fold(s: State, events: seq<Event>): State
    decreases events
  {
    if events == [] then s else Fold(Step(s, events[0]), events[1..])
  }

  function Verdict(s: State): Result<Metadata> {
    if s.client == 0 then Err else Ok(Metadata(s.client, s.update && s.closed))
  }

  function Sax(j: Json): Result<Metadata> { Verdict(Fold(START, Events(j))) }

  /** The callbacks update fields in place. */
  class Reader {
    var key: Key
    var depth: int
    var auth: int
    var client: int
    var update: bool
    var closed: bool

    ghost function Now(): State
      reads this
    {
      State(key, depth, auth, client, update, closed)
    }

    constructor ()
      ensures Now() == START
    {
      key, depth, auth, client, update, closed := KNone, 0, 0, 0, false, false;
    }

    method OnInteger(value: int)
      modifies this`client
      ensures Now() == Step(old(Now()), EInt(value))
    {
      if depth == 1 && key == KClient && value > 0 && value <= INT_MAX { client := value; }
    }

    method OnString(value: string)
      modifies this`update, this`closed
      ensures Now() == Step(old(Now()), EStr(value))
    {
      if key == KType && depth == 1 { update := value == UPDATE; }
      if key == KType && auth != 0 && depth == auth { closed := value == CLOSED; }
    }

    method OnStartObject()
      modifies this`auth, this`depth, this`key
      ensures Now() == Step(old(Now()), EStartObject)
    {
      if depth == 1 && key == KAuth { auth := 2; }
      depth := depth + 1;
      key := KNone;
    }

    method OnKey(name: string)
      modifies this`key
      ensures Now() == Step(old(Now()), EKey(name))
    {
      key := if name == CLIENT then KClient else if name == TYPE then KType else if name == AUTH then KAuth else KNone;
    }

    method OnEndObject()
      modifies this`auth, this`depth, this`key
      ensures Now() == Step(old(Now()), EEndObject)
    {
      if depth == auth { auth := 0; }
      depth := depth - 1;
      key := KNone;
    }

    method OnArray(start: bool)
      modifies this`depth, this`key
      ensures Now() == Step(old(Now()), if start then EStartArray else EEndArray)
    {
      depth := if start then depth + 1 else depth - 1;
      key := KNone;
    }
  }

  /** `read`: feed the events of a payload to a fresh reader. */
  method Read(j: Json) returns (r: Result<Metadata>)
    ensures r == Sax(j)
  {
    var reader := new Reader();
    var events := Events(j);
    for i := 0 to |events|
      invariant reader.Now() == Fold(START, events[..i])
      invariant fresh(reader)
    {
      FoldMore(START, events, i);
      match events[i] {
        case EInt(v) => { reader.OnInteger(v); }
        case EStr(v) => { reader.OnString(v); }
        case EStartObject => { reader.OnStartObject(); }
        case EKey(name) => { reader.OnKey(name); }
        case EEndObject => { reader.OnEndObject(); }
        case EStartArray => { reader.OnArray(true); }
        case EEndArray => { reader.OnArray(false); }
        case _ => {}
      }
    }
    assert events[..|events|] == events;
    r := if reader.client == 0 then Err else Ok(Metadata(reader.client, reader.update && reader.closed));
  }

  lemma {:induction false} FoldMore(s: State, events: seq<Event>, n: nat)
    requires n < |events|
    ensures Fold(s, events[..n + 1]) == Step(Fold(s, events[..n]), events[n])
    decreases n
  {
    if n > 0 {
      FoldMore(Step(s, events[0]), events[1..], n - 1);
      assert events[1..][..n] == events[..n + 1][1..] && events[1..][..n - 1] == events[..n][1..];
    }
  }

  lemma {:induction false} FoldBoth(s: State, a: seq<Event>, b: seq<Event>)
    ensures Fold(s, a + b) == Fold(Fold(s, a), b)
    decreases |a|
  {
    if a == [] {
      assert a + b == b;
    } else {
      FoldBoth(Step(s, a[0]), a[1..], b);
      assert (a + b)[1..] == a[1..] + b;
    }
  }

  /** The bracketing events of a container around its contents. */
  lemma FoldAround(s: State, open: Event, inner: seq<Event>, close: Event)
    ensures Fold(s, [open] + inner + [close]) == Step(Fold(Step(s, open), inner), close)
  {
    FoldBoth(s, [open] + inner, [close]);
    FoldBoth(s, [open], inner);
    assert Fold(s, [open]) == Step(s, open);
  }

  lemma FoldMember(s: State, m: Member, rest: seq<Member>)
    ensures Fold(s, MemberEvents([m] + rest)) == Fold(Fold(Step(s, EKey(m.name)), Events(m.value)), MemberEvents(rest))
  {
    assert ([m] + rest)[1..] == rest;
    FoldBoth(s, [EKey(m.name)] + Events(m.value), MemberEvents(rest));
    FoldBoth(s, [EKey(m.name)], Events(m.value));
    assert Fold(s, [EKey(m.name)]) == Step(s, EKey(m.name));
  }

  // What the automaton makes of each level.

  /** Equal but for the key, which the next key or closing bracket replaces. */
  predicate Like(s: State, t: State) { s.(key := KNone) == t.(key := KNone) }

  /** Below the levels that matter nothing is recorded. */
  lemma {:induction false} Inner(s: State, j: Json)
    requires s.depth >= 2 && s.auth < s.depth
    ensures Like(Fold(s, Events(j)), s)
    decreases j
  {
    match j {
      case Arr(items) =>
        FoldAround(s, EStartArray, ItemEvents(items), EEndArray);
        InnerItems(Step(s, EStartArray), items);
      case Obj(members) =>
        FoldAround(s, EStartObject, MemberEvents(members), EEndObject);
        InnerMembers(Step(s, EStartObject), members);
      case _ => assert Fold(s, Events(j)) == Step(s, Events(j)[0]);
    }
  }

  lemma {:induction false} InnerItems(s: State, items: seq<Json>)
    requires s.depth >= 2 && s.auth < s.depth
    ensures Like(Fold(s, ItemEvents(items)), s)
    decreases items
  {
    if items != [] {
      FoldBoth(s, Events(items[0]), ItemEvents(items[1..]));
      Inner(s, items[0]);
      InnerItems(Fold(s, Events(items[0])), items[1..]);
    }
  }

  lemma {:induction false} InnerMembers(s: State, members: seq<Member>)
    requires s.depth >= 2 && s.auth < s.depth
    ensures Like(Fold(s, MemberEvents(members)), s)
    decreases members
  {
    if members != [] {
      var m := members[0];
      assert members == [m] + members[1..];
      FoldMember(s, m, members[1..]);
      Inner(Step(s, EKey(m.name)), m.value);
      InnerMembers(Fold(Step(s, EKey(m.name)), Events(m.value)), members[1..]);
    }
  }

  /** The last member that decides wins. */
  function ClosedAfter(closed: bool, members: seq<Member>): bool
    decreases members
  {
    if members == [] then closed
    else
      var m := members[0];
      ClosedAfter(if m.name == TYPE && m.value.Str? then m.value.s == CLOSED else closed, members[1..])
  }

  function ClientAfter(client: int, members: seq<Member>): int
    decreases members
  {
    if members == [] then client
    else
      var m := members[0];
      ClientAfter(if m.name == CLIENT && m.value.Int? && 0 < m.value.i <= INT_MAX then m.value.i else client, members[1..])
  }

  function UpdateAfter(update: bool, members: seq<Member>): bool
    decreases members
  {
    if members == [] then update
    else
      var m := members[0];
      UpdateAfter(if m.name == TYPE && m.value.Str? then m.value.s == UPDATE else update, members[1..])
  }

  function StateAfter(closed: bool, members: seq<Member>): bool
    decreases members
  {
    if members == [] then closed
    else
      var m := members[0];
      StateAfter(if m.name == AUTH && m.value.Obj? then ClosedAfter(closed, m.value.members) else closed, members[1..])
  }

  lemma {:induction false} AuthMembers(s: State, members: seq<Member>)
    requires s.depth == 2 && s.auth == 2
    ensures Like(Fold(s, MemberEvents(members)), s.(closed := ClosedAfter(s.closed, members)))
    decreases members
  {
    if members != [] {
      var m := members[0];
      assert members == [m] + members[1..];
      FoldMember(s, m, members[1..]);
      var t := Step(s, EKey(m.name));
      AuthValue(t, m.value);
      AuthMembers(Fold(t, Events(m.value)), members[1..]);
    }
  }

  lemma AuthValue(s: State, j: Json)
    requires s.depth == 2 && s.auth == 2
    ensures Like(Fold(s, Events(j)), if s.key == KType && j.Str? then s.(closed := j.s == CLOSED) else s)
  {
    match j {
      case Arr(items) =>
        FoldAround(s, EStartArray, ItemEvents(items), EEndArray);
        InnerItems(Step(s, EStartArray), items);
      case Obj(members) =>
        FoldAround(s, EStartObject, MemberEvents(members), EEndObject);
        InnerMembers(Step(s, EStartObject), members);
      case _ => assert Fold(s, Events(j)) == Step(s, Events(j)[0]);
    }
  }

  lemma {:induction false} RootMembers(s: State, members: seq<Member>)
    requires s.depth == 1 && s.auth == 0
    ensures Like(Fold(s, MemberEvents(members)),
                 s.(client := ClientAfter(s.client, members), update := UpdateAfter(s.update, members),
                    closed := StateAfter(s.closed, members)))
    decreases members
  {
    if members != [] {
      var m := members[0];
      assert members == [m] + members[1..];
      FoldMember(s, m, members[1..]);
      var t := Step(s, EKey(m.name));
      RootValue(t, m.value);
      hide Events, Fold;
      RootMembers(Fold(t, Events(m.value)), members[1..]);
    }
  }

  function RootEffect(s: State, j: Json): State {
    match j
    case Int(i) => if s.key == KClient && 0 < i <= INT_MAX then s.(client := i) else s
    case Str(v) => if s.key == KType then s.(update := v == UPDATE) else s
    case Obj(members) => if s.key == KAuth then s.(closed := ClosedAfter(s.closed, members)) else s
    case _ => s
  }

  lemma RootValue(s: State, j: Json)
    requires s.depth == 1 && s.auth == 0
    ensures Like(Fold(s, Events(j)), RootEffect(s, j))
  {
    match j {
      case Arr(items) =>
        FoldAround(s, EStartArray, ItemEvents(items), EEndArray);
        InnerItems(Step(s, EStartArray), items);
      case Obj(members) =>
        FoldAround(s, EStartObject, MemberEvents(members), EEndObject);
        var t := Step(s, EStartObject);
        if s.key == KAuth { AuthMembers(t, members); } else { InnerMembers(t, members); }
      case _ => assert Fold(s, Events(j)) == Step(s, Events(j)[0]);
    }
  }

  // Unique names: the last member that decides is the one that lookup finds.

  ghost predicate Unique(members: seq<Member>) {
    forall i, j :: 0 <= i < j < |members| ==> members[i].name != members[j].name
  }

  lemma {:induction false} FindNone(members: seq<Member>, name: string)
    requires forall i :: 0 <= i < |members| ==> members[i].name != name
    ensures Find(members, name) == Err
  {
    if members != [] { FindNone(members[1..], name); }
  }

  lemma {:induction false} ClientFound(client: int, members: seq<Member>)
    requires Unique(members)
    ensures ClientAfter(client, members) == match Find(members, CLIENT)
      case Ok(Int(i)) => if 0 < i <= INT_MAX then i else client
      case _ => client
    decreases members
  {
    if members != [] {
      var rest := members[1..];
      assert forall i :: 0 <= i < |rest| ==> rest[i] == members[i + 1];
      if members[0].name == CLIENT { FindNone(rest, CLIENT); }
      var m := members[0];
      ClientFound(if m.name == CLIENT && m.value.Int? && 0 < m.value.i <= INT_MAX then m.value.i else client, rest);
    }
  }

  lemma {:induction false} UpdateFound(update: bool, members: seq<Member>)
    requires Unique(members)
    ensures UpdateAfter(update, members) == match Find(members, TYPE)
      case Ok(Str(s)) => s == UPDATE
      case _ => update
    decreases members
  {
    if members != [] {
      var rest := members[1..];
      assert forall i :: 0 <= i < |rest| ==> rest[i] == members[i + 1];
      if members[0].name == TYPE { FindNone(rest, TYPE); }
      var m := members[0];
      UpdateFound(if m.name == TYPE && m.value.Str? then m.value.s == UPDATE else update, rest);
    }
  }

  lemma {:induction false} ClosedFound(closed: bool, members: seq<Member>)
    requires Unique(members)
    ensures ClosedAfter(closed, members) == match Find(members, TYPE)
      case Ok(Str(s)) => s == CLOSED
      case _ => closed
    decreases members
  {
    if members != [] {
      var rest := members[1..];
      assert forall i :: 0 <= i < |rest| ==> rest[i] == members[i + 1];
      if members[0].name == TYPE { FindNone(rest, TYPE); }
      var m := members[0];
      ClosedFound(if m.name == TYPE && m.value.Str? then m.value.s == CLOSED else closed, rest);
    }
  }

  lemma {:induction false} StateFound(closed: bool, members: seq<Member>)
    requires Unique(members)
    ensures StateAfter(closed, members) == match Find(members, AUTH)
      case Ok(Obj(state)) => ClosedAfter(closed, state)
      case _ => closed
    decreases members
  {
    if members != [] {
      var rest := members[1..];
      assert forall i :: 0 <= i < |rest| ==> rest[i] == members[i + 1];
      if members[0].name == AUTH { FindNone(rest, AUTH); }
      var m := members[0];
      StateFound(if m.name == AUTH && m.value.Obj? then ClosedAfter(closed, m.value.members) else closed, rest);
    }
  }

  /** Names are unique where they are looked up: in the root and in its
      authorization state. */
  ghost predicate Named(j: Json) {
    j.Obj? ==> Unique(j.members) && match Find(j.members, AUTH) case Ok(Obj(state)) => Unique(state) case _ => true
  }

  /** The client member is an integer that is a client identity. */
  predicate HasClient(members: seq<Member>) {
    match Find(members, CLIENT) case Ok(Int(i)) => 0 < i <= INT_MAX case _ => false
  }

  predicate IsClosed(members: seq<Member>) {
    && Find(members, TYPE) == Ok(Str(UPDATE))
    && match Find(members, AUTH) case Ok(Obj(state)) => Find(state, TYPE) == Ok(Str(CLOSED)) case _ => false
  }

  /** What the automaton answers, in terms of the tree. */
  lemma SaxMeaning(j: Json)
    requires Named(j)
    ensures Sax(j) == if j.Obj? && HasClient(j.members) then Ok(Metadata(Find(j.members, CLIENT).value.i, IsClosed(j.members))) else Err
  {
    if j.Obj? {
      FoldAround(START, EStartObject, MemberEvents(j.members), EEndObject);
      RootMembers(Step(START, EStartObject), j.members);
      ClientFound(0, j.members);
      UpdateFound(false, j.members);
      StateFound(false, j.members);
      match Find(j.members, AUTH) { case Ok(Obj(state)) => ClosedFound(false, state); case _ => }
    } else {
      NotAnObject(j);
    }
  }

  lemma NotAnObject(j: Json)
    requires !j.Obj?
    ensures Sax(j) == Err
  {
    match j {
      case Arr(items) =>
        FoldAround(START, EStartArray, ItemEvents(items), EEndArray);
        RootItems(Step(START, EStartArray), items);
      case Null | Bool(_) | Int(_) | Float(_) | Str(_) => assert Fold(START, Events(j)) == Step(START, Events(j)[0]);
    }
  }

  /** Elements of a root array are at the depth of members but have no key. */
  lemma {:induction false} RootItems(s: State, items: seq<Json>)
    requires s.depth == 1 && s.auth == 0 && s.key == KNone
    ensures Fold(s, ItemEvents(items)) == s
    decreases items
  {
    if items != [] {
      FoldBoth(s, Events(items[0]), ItemEvents(items[1..]));
      RootValue(s, items[0]);
      KeyStays(s, items[0]);
      RootItems(s, items[1..]);
    }
  }

  lemma KeyStays(s: State, j: Json)
    requires s.key == KNone
    ensures Fold(s, Events(j)).key == KNone
  {
    match j {
      case Arr(items) => FoldAround(s, EStartArray, ItemEvents(items), EEndArray);
      case Obj(members) => FoldAround(s, EStartObject, MemberEvents(members), EEndObject);
      case _ => assert Fold(s, Events(j)) == Step(s, Events(j)[0]);
    }
  }

  // The two readings side by side. What decides is told by the types of members.

  /** The type member is absent or a string. */
  predicate TypeFits(members: seq<Member>) {
    match Find(members, TYPE) case Ok(Str(_)) => true case Ok(_) => false case Err => true
  }

  /** The lookups behind the terminal flag find the types they ask for. */
  predicate TypesFit(members: seq<Member>) {
    && TypeFits(members)
    && (Find(members, TYPE) == Ok(Str(UPDATE)) ==>
          match Find(members, AUTH) case Ok(Obj(state)) => TypeFits(state) case _ => false)
  }

  /** The client member is a number or a boolean. */
  predicate HasNumber(members: seq<Member>) {
    match Find(members, CLIENT) case Ok(c) => c.Int? || c.Float? || c.Bool? case Err => false
  }

  lemma DomAccepts(j: Json)
    ensures Dom(j).Ok? <==> j.Obj? && HasNumber(j.members) && TypesFit(j.members)
    ensures Dom(j).Ok? ==> Dom(j).value.terminal == IsClosed(j.members)
    ensures Dom(j).Ok? ==> Ok(Dom(j).value.client) == GetInt(Find(j.members, CLIENT).value)
  {
  }

  /** The two readings agree exactly when the client is a proper identity and the
      types fit, or when neither accepts the payload. They differ when the types
      of the tree do not fit, which the automaton does not look at, and when the
      client is a number or boolean that is not an identity. */
  lemma ReadingsAgree(j: Json)
    requires Named(j)
    ensures Sax(j) == Dom(j) <==>
      if j.Obj? && HasClient(j.members) then TypesFit(j.members)
      else !(j.Obj? && HasNumber(j.members) && TypesFit(j.members))
  {
    SaxMeaning(j);
    DomAccepts(j);
    if j.Obj? && HasClient(j.members) { Small(Find(j.members, CLIENT).value.i); }
  }

  lemma Small(i: int)
    requires 0 < i <= INT_MAX
    ensures Wrap32(i) == i
  {
  }

  /** Well-typed payloads: same client, same terminal flag. */
  lemma WellTypedAgree(j: Json)
    requires Named(j) && j.Obj? && HasClient(j.members) && TypesFit(j.members)
    ensures Sax(j) == Dom(j) == Ok(Metadata(Find(j.members, CLIENT).value.i, IsClosed(j.members)))
  {
    SaxMeaning(j);
    DomAccepts(j);
    Small(Find(j.members, CLIENT).value.i);
  }

  /** A client past 32 bits: the tree lookup answers another identity, the
      automaton refuses the payload. */
  lemma LargeClientDiffers()
    ensures var j := Obj([Member(CLIENT, Int(0x1_0000_0001))]); Dom(j) == Ok(Metadata(1, false)) && Sax(j) == Err
  {
    var j := Obj([Member(CLIENT, Int(0x1_0000_0001))]);
    SaxMeaning(j);
    FindNone(j.members, TYPE);
  }

  /** The message that ends a client, spelled out: both readings call it terminal for
      the one pair of type names, and for no other. */
  lemma EndsExactly(client: int, update: string, state: string)
    requires 0 < client <= 2147483647
    ensures var j := Obj([Member("@client_id", Int(client)), Member("@type", Str(update)),
                          Member("authorization_state", Obj([Member("@type", Str(state))]))]);
      Sax(j) == Dom(j) == Ok(Metadata(client, update == "updateAuthorizationState" && state == "authorizationStateClosed"))
  {
    var inner := [Member("@type", Str(state))];
    var j := Obj([Member("@client_id", Int(client)), Member("@type", Str(update)), Member("authorization_state", Obj(inner))]);
    assert |CLIENT| == 10 && |TYPE| == 5 && |AUTH| == 19;
    assert Find(inner, TYPE) == Ok(Str(state));
    assert j.members[1..] == [j.members[1], j.members[2]] && j.members[1..][1..] == [j.members[2]];
    assert Find(j.members[1..][1..], AUTH) == Ok(Obj(inner));
    assert Find(j.members[1..], AUTH) == Ok(Obj(inner)) && Find(j.members[1..], TYPE) == Ok(Str(update));
    assert Find(j.members, AUTH) == Ok(Obj(inner)) && Find(j.members, TYPE) == Ok(Str(update));
    WellTypedAgree(j);
  }
}
