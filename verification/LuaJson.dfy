/** JSON values to Lua tables and back, on the Lua 5.3 rules: integers and floats
    are distinct, and an integral key is an integer key. Tables are visited in
    any order. */
module LuaJson {
  import opened Common

  datatype Json = Null | Bool(b: bool) | Int(i: int) | Float(f: real) | Str(s: string)
                | Arr(items: seq<Json>) | Obj(members: map<string, Json>)

  /** `KFloat` is a key that is no integer, by its printed form. */
  datatype Key = KInt(i: int) | KFloat(text: string) | KStr(s: string) | KBool(b: bool)

  datatype Lua = LNil | LBool(b: bool) | LInt(i: int) | LFloat(f: real) | LStr(s: string)
               | LTable(entries: map<Key, Lua>) | LOther

  const INT64_MIN := -0x8000_0000_0000_0000
  const INT64_MAX := 0x7FFF_FFFF_FFFF_FFFF

  /** Trees without nulls whose integers are 64 bits wide. */
  ghost predicate Plain(j: Json)
    decreases j
  {
    match j
    case Null => false
    case Int(i) => INT64_MIN <= i <= INT64_MAX
    case Arr(items) => forall i :: 0 <= i < |items| ==> Plain(items[i])
    case Obj(members) => forall k :: k in members ==> Plain(members[k])
    case _ => true
  }

  // Arrays.

  /** The keys 1 to n. */
  function Range(n: nat): set<Key> { set i | 1 <= i <= n :: KInt(i) }

  predicate IsArray(t: map<Key, Lua>) { t.Keys == Range(|t|) }

  lemma {:induction false} RangeSize(n: nat)
    ensures |Range(n)| == n
  {
    if n > 0 {
      RangeSize(n - 1);
      assert Range(n) == Range(n - 1) + {KInt(n)};
    }
  }

  lemma {:induction false} SubsetSize(a: set<Key>, b: set<Key>)
    requires a <= b
    ensures |a| <= |b| && (|a| == |b| ==> a == b)
    decreases |a|
  {
    if a != {} {
      var k :| k in a;
      SubsetSize(a - {k}, b - {k});
      assert a == (a - {k}) + {k} && b == (b - {k}) + {k};
    }
  }

  lemma RangeTop(keys: set<Key>, max: nat)
    requires keys == Range(|keys|) && keys != {} && KInt(max) in keys
    requires forall k :: k in keys ==> k.KInt? && 1 <= k.i <= max
    ensures max == |keys|
  {
    assert KInt(|keys|) in Range(|keys|);
  }

  /** Positive integer keys whose maximum is their number are 1 to that number,
      and no other keys are. */
  lemma MaxIsCount(keys: set<Key>, max: nat)
    requires forall k :: k in keys ==> k.KInt? && 1 <= k.i <= max
    requires keys == {} ==> max == 0
    requires keys != {} ==> KInt(max) in keys
    ensures max == |keys| <==> keys == Range(|keys|)
  {
    RangeSize(max);
    if max == |keys| {
      assert keys <= Range(max);
      SubsetSize(keys, Range(max));
    }
    if keys == Range(|keys|) && keys != {} { RangeTop(keys, max); }
  }

  /** Positive integer keys and their maximum. */
  ghost predicate Scanned(seen: set<Key>, max: nat) {
    && (forall k :: k in seen ==> k.KInt? && 1 <= k.i <= max)
    && (if seen == {} then max == 0 else KInt(max) in seen)
  }

  lemma ScanNone()
    ensures Scanned({}, 0)
  {
  }

  lemma ScanOne(seen: set<Key>, max: nat, k: Key)
    requires Scanned(seen, max) && k.KInt? && k.i >= 1
    ensures Scanned(seen + {k}, if k.i > max then k.i else max)
  {
  }

  /** `lua_isarray`: one pass over the keys, in any order. */
  method DetectArray(t: map<Key, Lua>) returns (r: bool)
    ensures r == IsArray(t)
  {
    hide IsArray, Range, Scanned;
    ScanNone();
    var max: nat, size := 0, 0;
    var todo := t.Keys;
    ghost var seen: set<Key> := {};
    while todo != {}
      invariant seen + todo == t.Keys && seen !! todo && size == |seen|
      invariant Scanned(seen, max)
      decreases |todo|
    {
      var k :| k in todo;
      if !k.KInt? || k.i < 1 {
        NotInRange(t, k);
        return false;
      }
      ScanOne(seen, max, k);
      if k.i > max { max := k.i; }
      size := size + 1;
      todo, seen := todo - {k}, seen + {k};
    }
    assert seen == t.Keys;
    ArrayByCount(t, max);
    return max == size;
  }

  lemma NotInRange(t: map<Key, Lua>, k: Key)
    requires k in t && (!k.KInt? || k.i < 1)
    ensures !IsArray(t)
  {
    assert k !in Range(|t|);
  }

  lemma ArrayByCount(t: map<Key, Lua>, max: nat)
    requires Scanned(t.Keys, max)
    ensures max == |t| <==> IsArray(t)
    ensures forall k :: k in t ==> k.KInt? && 1 <= k.i
  {
    assert |t| == |t.Keys|;
    MaxIsCount(t.Keys, max);
  }

  // Pushing.

  const TYPE := "@type"
  const UNDER := "_"

  /** A copy of `@type` goes under `_` unless that is there. */
  function MemberKeys(members: map<string, Json>): set<Key> {
    (set k | k in members :: KStr(k)) + (if TYPE in members then {KStr(UNDER)} else {})
  }

  function Source(members: map<string, Json>, name: string): string { if name in members then name else TYPE }

  /** The Lua value of a tree. An object with `@type` gets `_` beside it. */
  function Push(j: Json): Lua
    decreases j
  {
    match j
    case Null => LNil
    case Bool(b) => LBool(b)
    case Int(i) => LInt(i)
    case Float(f) => LFloat(f)
    case Str(s) => LStr(s)
    case Arr(items) => LTable(map k | k in Range(|items|) :: Push(items[k.i - 1]))
    case Obj(members) => LTable(map k | k in MemberKeys(members) :: Push(members[Source(members, k.s)]))
  }

  lemma PushArr(items: seq<Json>, t: map<Key, Lua>)
    requires t.Keys == Range(|items|)
    requires forall k :: k in Range(|items|) ==> t[k] == Push(items[k.i - 1])
    ensures Push(Arr(items)) == LTable(t)
  {
  }

  lemma PushObj(members: map<string, Json>, t: map<Key, Lua>)
    requires t.Keys == MemberKeys(members)
    requires forall k :: k in t ==> t[k] == Push(members[Source(members, k.s)])
    ensures Push(Obj(members)) == LTable(t)
  {
  }

  lemma PlainParts(j: Json)
    requires Plain(j)
    ensures j.Arr? ==> forall i :: 0 <= i < |j.items| ==> Plain(j.items[i])
    ensures j.Obj? ==> forall k :: k in j.members ==> Plain(j.members[k])
  {
  }

  /** `push_json_value`. */
  method PushValue(j: Json) returns (v: Lua)
    requires Plain(j)
    ensures v == Push(j)
    decreases j
  {
    match j {
      case Null => v := LNil;
      case Bool(b) => v := LBool(b);
      case Int(i) => v := LInt(i);
      case Float(f) => v := LFloat(f);
      case Str(s) => v := LStr(s);
      case Arr(items) => v := PushArray(items);
      case Obj(members) => v := PushObject(members);
    }
  }

  method PushArray(items: seq<Json>) returns (v: Lua)
    requires Plain(Arr(items))
    ensures v == Push(Arr(items))
    decreases Arr(items), 0
  {
    hide Push, Plain;
    PlainParts(Arr(items));
    var t: map<Key, Lua> := map[];
    for n := 0 to |items|
      invariant t.Keys == Range(n)
      invariant forall k :: k in t ==> t[k] == Push(items[k.i - 1])
    {
      var item := PushValue(items[n]);
      assert Range(n + 1) == Range(n) + {KInt(n + 1)};
      t := t[KInt(n + 1) := item];
    }
    PushArr(items, t);
    v := LTable(t);
  }

  method PushObject(members: map<string, Json>) returns (v: Lua)
    requires Plain(Obj(members))
    ensures v == Push(Obj(members))
    decreases Obj(members), 0
  {
    hide Push, Plain;
    PlainParts(Obj(members));
    var t: map<Key, Lua> := map[];
    var todo := members.Keys;
    while todo != {}
      invariant todo <= members.Keys
      invariant forall k :: k in t <==> k.KStr? && Placed(k.s, members, todo)
      invariant forall k :: k in t ==> t[k] == Push(members[Source(members, k.s)])
      decreases |todo|
    {
      var k :| k in todo;
      var value := PushValue(members[k]);
      t := t[KStr(k) := value];
      if k == TYPE && UNDER !in members {
        var copy := PushValue(members[k]);
        t := t[KStr(UNDER) := copy];
      }
      todo := todo - {k};
    }
    assert t.Keys == MemberKeys(members);
    PushObj(members, t);
    v := LTable(t);
  }

  /** The string keys that the loop over the members has set so far. */
  ghost predicate Placed(k: string, members: map<string, Json>, todo: set<string>) {
    || (k in members && k !in todo)
    || (k == UNDER && UNDER !in members && TYPE in members && TYPE !in todo)
  }

  // Reading.

  /** A member name from a key; a boolean has none. */
  function NameOf(k: Key): string
    requires !k.KBool?
  {
    match k
    case KInt(i) => Decimal(i)
    case KFloat(text) => text
    case KStr(s) => s
  }

  function Digits(n: nat): string {
    if n < 10 then [(n as char) + '0'] else Digits(n / 10) + [((n % 10) as char) + '0']
  }

  function Decimal(i: int): string { if i < 0 then "-" + Digits(-i) else Digits(i) }

  /** Values and keys that the reader accepts. */
  predicate Supported(v: Lua)
    decreases v
  {
    match v
    case LNil => false
    case LOther => false
    case LTable(t) => (IsArray(t) || forall k :: k in t ==> !k.KBool?) && forall k :: k in t ==> Supported(t[k])
    case _ => true
  }

  /** No two keys of an object-like table have the same name. */
  ghost predicate Clear(v: Lua)
    decreases v
  {
    v.LTable? ==>
      && (forall k :: k in v.entries ==> Clear(v.entries[k]))
      && (IsArray(v.entries) || NoClash(v.entries))
  }

  ghost predicate NoClash(t: map<Key, Lua>) {
    forall k, m :: k in t && m in t && !k.KBool? && !m.KBool? && NameOf(k) == NameOf(m) ==> k == m
  }

  /** `@type` is filled in from the string key `_`. */
  function Typed(m: map<string, Json>, t: map<Key, Lua>): map<string, Json> {
    if KStr(UNDER) in t && UNDER in m && TYPE !in m then m[TYPE := m[UNDER]] else m
  }

  ghost function Named(v: Lua): map<string, Json>
    requires v.LTable? && !IsArray(v.entries) && Supported(v) && Clear(v)
    decreases v, 0
  {
    map k | k in v.entries :: NameOf(k) := Value(v.entries[k])
  }

  /** What a table says, whatever the order of visits. */
  ghost function Value(v: Lua): Json
    requires Supported(v) && Clear(v)
    decreases v, 1
  {
    match v
    case LBool(b) => Bool(b)
    case LInt(i) => Int(i)
    case LFloat(f) => Float(f)
    case LStr(s) => Str(s)
    case LTable(t) =>
      if IsArray(t) then Arr(seq(|t|, i requires 0 <= i < |t| => Value(t[KInt(i + 1)])))
      else Obj(Typed(Named(v), t))
  }

  // Any order of visits, clashing names included.

  /** One more member: a name is set anew, and `_` also sets a missing `@type`. */
  function SetMember(m: map<string, Json>, k: Key, j: Json): map<string, Json>
    requires !k.KBool?
  {
    var n := m[NameOf(k) := j];
    if k == KStr(UNDER) && TYPE !in n then n[TYPE := j] else n
  }

  /** The members after visiting these keys one after the other. */
  function Built(order: seq<Key>, parts: map<Key, Json>): map<string, Json>
    requires forall k :: k in order ==> k in parts && !k.KBool?
  {
    if order == [] then map[]
    else SetMember(Built(order[..|order| - 1], parts), order[|order| - 1], parts[order[|order| - 1]])
  }

  /** Every key of the table once. */
  ghost predicate Visits(order: seq<Key>, t: map<Key, Lua>) {
    && (forall k :: k in order <==> k in t) && (forall k :: k in t ==> !k.KBool?)
    && (forall i, j :: 0 <= i < j < |order| ==> order[i] != order[j])
  }

  /** A tree that reading the value gives in some order of visits. */
  ghost predicate Reads(v: Lua, j: Json)
    decreases v, 1
  {
    match v
    case LNil => false
    case LOther => false
    case LBool(b) => j == Bool(b)
    case LInt(i) => j == Int(i)
    case LFloat(f) => j == Float(f)
    case LStr(s) => j == Str(s)
    case LTable(t) =>
      if IsArray(t) then j.Arr? && |j.items| == |t| && forall k :: k in t ==> k.KInt? && 1 <= k.i <= |t| && Reads(t[k], j.items[k.i - 1])
      else j.Obj? && exists order, parts: map<Key, Json> :: Visits(order, t) && PartsOf(v, parts) && j.members == Built(order, parts)
  }

  ghost predicate PartsOf(v: Lua, parts: map<Key, Json>)
    requires v.LTable?
    decreases v, 0
  {
    parts.Keys == v.entries.Keys && forall k :: k in v.entries ==> Reads(v.entries[k], parts[k])
  }

  /** Of the keys with one name the last one visited decides. */
  lemma {:induction false} LastVisitWins(order: seq<Key>, parts: map<Key, Json>, i: nat)
    requires forall k :: k in order ==> k in parts && !k.KBool?
    requires i < |order| && forall j :: i < j < |order| ==> NameOf(order[j]) != NameOf(order[i])
    ensures NameOf(order[i]) in Built(order, parts) && Built(order, parts)[NameOf(order[i])] == parts[order[i]]
    decreases |order|
  {
    hide NameOf;
    if i < |order| - 1 { LastVisitWins(order[..|order| - 1], parts, i); }
  }

  lemma {:induction false} BuiltSame(order: seq<Key>, parts: map<Key, Json>, more: map<Key, Json>)
    requires forall k :: k in order ==> k in parts && !k.KBool? && k in more && more[k] == parts[k]
    ensures Built(order, parts) == Built(order, more)
    decreases |order|
  {
    if order != [] { BuiltSame(order[..|order| - 1], parts, more); }
  }

  /** `lua_getjson_value`: it fails exactly on unsupported values and keys, gives
      what some order of visits gives, and the same tree in every order when no
      names clash. */
  method Read(v: Lua) returns (r: Result<Json>)
    ensures r.Ok? <==> Supported(v)
    ensures r.Ok? ==> Reads(v, r.value)
    ensures Supported(v) && Clear(v) ==> r == Ok(Value(v))
    decreases v
  {
    match v {
      case LNil => r := Err;
      case LOther => r := Err;
      case LBool(b) => r := Ok(Bool(b));
      case LInt(i) => r := Ok(Int(i));
      case LFloat(f) => r := Ok(Float(f));
      case LStr(s) => r := Ok(Str(s));
      case LTable(t) =>
        var arr := DetectArray(t);
        if arr { r := ReadArray(v, t); } else { r := ReadObject(v, t); }
    }
  }

  lemma KeyRange(t: map<Key, Lua>, k: Key)
    requires IsArray(t)
    ensures k in t <==> k.KInt? && 1 <= k.i <= |t|
  {
    if k.KInt? && 1 <= k.i <= |t| { assert k in Range(|t|); }
    if k in t { assert k in Range(|t|); }
  }

  /** The elements visited so far are at their index. */
  ghost predicate Filled(t: map<Key, Lua>, todo: set<Key>, out: seq<Json>) {
    forall k :: k in t && k !in todo ==> k.KInt? && 1 <= k.i <= |out| && Supported(t[k]) && Clear(t[k]) && out[k.i - 1] == Value(t[k])
  }

  lemma ValueArr(v: Lua, t: map<Key, Lua>, out: seq<Json>)
    requires v == LTable(t) && IsArray(t) && Clear(v) && Supported(v) && |out| == |t|
    requires forall i :: 0 <= i < |out| ==> AtIndex(t, i, out[i])
    ensures Value(v) == Arr(out)
  {
    forall i | 0 <= i < |out| ensures out[i] == Value(v).items[i] { assert AtIndex(t, i, out[i]); }
  }

  ghost predicate AtIndex(t: map<Key, Lua>, i: int, item: Json) {
    var k := KInt(i + 1);
    k in t && Supported(t[k]) && Clear(t[k]) && item == Value(t[k])
  }

  lemma FilledAll(v: Lua, t: map<Key, Lua>, out: seq<Json>)
    requires v == LTable(t) && IsArray(t) && Filled(t, {}, out) && |out| <= |t| && Clear(v) && Supported(v)
    ensures Value(v) == Arr(out)
  {
    hide Value, Clear, Supported, IsArray;
    if |t| > 0 { KeyRange(t, KInt(|t|)); }
    forall i | 0 <= i < |out| ensures AtIndex(t, i, out[i]) { KeyRange(t, KInt(i + 1)); }
    ValueArr(v, t, out);
  }

  /** The elements visited so far are read. */
  ghost predicate ReadSoFar(t: map<Key, Lua>, todo: set<Key>, out: seq<Json>) {
    forall k :: k in t && k !in todo ==> k.KInt? && 1 <= k.i <= |out| && Reads(t[k], out[k.i - 1])
  }

  lemma ReadAll(v: Lua, t: map<Key, Lua>, out: seq<Json>)
    requires v == LTable(t) && IsArray(t) && ReadSoFar(t, {}, out) && |out| <= |t|
    ensures Reads(v, Arr(out))
  {
    if |t| > 0 { KeyRange(t, KInt(|t|)); }
    hide IsArray;
  }

  /** Array elements land at their index; the gaps are nulls until filled. */
  method ReadArray(v: Lua, t: map<Key, Lua>) returns (r: Result<Json>)
    requires v == LTable(t) && IsArray(t)
    ensures r.Ok? <==> Supported(v)
    ensures r.Ok? ==> Reads(v, r.value)
    ensures Supported(v) && Clear(v) ==> r == Ok(Value(v))
    decreases v, 0
  {
    hide IsArray, Value, Reads;
    var out: seq<Json> := [];
    var todo := t.Keys;
    while todo != {}
      invariant todo <= t.Keys && |out| <= |t|
      invariant forall k :: k in t && k !in todo ==> Supported(t[k])
      invariant Clear(v) ==> Filled(t, todo, out)
      invariant ReadSoFar(t, todo, out)
      decreases |todo|
    {
      var k :| k in todo;
      KeyRange(t, k);
      var item := Read(t[k]);
      if item.Err? { return Err; }
      if k.i > |out| { out := out + seq(k.i - |out|, i => Null); }
      out := out[k.i - 1 := item.value];
      todo := todo - {k};
    }
    if Clear(v) { FilledAll(v, t, out); }
    ReadAll(v, t, out);
    return Ok(Arr(out));
  }

  /** The keys visited so far, in order, and what was read under them. */
  ghost predicate Visited(t: map<Key, Lua>, todo: set<Key>, order: seq<Key>, parts: map<Key, Json>) {
    && (forall k :: k in order <==> k in t && k !in todo) && (forall i, j :: 0 <= i < j < |order| ==> order[i] != order[j])
    && (forall k :: k in order ==> k in parts && !k.KBool?) && (forall k :: k in parts ==> k in order && Reads(t[k], parts[k]))
  }

  lemma VisitedNone(t: map<Key, Lua>)
    ensures Visited(t, t.Keys, [], map[])
  {
  }

  lemma VisitedMore(t: map<Key, Lua>, todo: set<Key>, order: seq<Key>, parts: map<Key, Json>, k: Key, j: Json)
    requires Visited(t, todo, order, parts) && k in t && k in todo && !k.KBool? && Reads(t[k], j)
    ensures Visited(t, todo - {k}, order + [k], parts[k := j])
    ensures Built(order + [k], parts[k := j]) == SetMember(Built(order, parts), k, j)
  {
    hide Reads, SetMember;
    assert (order + [k])[..|order|] == order;
    BuiltSame(order, parts, parts[k := j]);
  }

  lemma VisitedAll(v: Lua, t: map<Key, Lua>, order: seq<Key>, parts: map<Key, Json>)
    requires v == LTable(t) && !IsArray(t) && Visited(t, {}, order, parts)
    ensures (forall k :: k in order ==> k in parts && !k.KBool?) && Reads(v, Obj(Built(order, parts)))
  {
    hide IsArray, Built;
    assert Visits(order, t) && PartsOf(v, parts);
  }

  lemma SetIs(m: map<string, Json>, k: Key, j: Json)
    requires !k.KBool?
    ensures SetMember(m, k, j) ==
      var n := m[NameOf(k) := j]; if k == KStr(UNDER) && TYPE !in n then n[TYPE := n[NameOf(k)]] else n
  {
  }

  /** Object members are set by name; `_` also sets a missing `@type`. */
  method ReadObject(v: Lua, t: map<Key, Lua>) returns (r: Result<Json>)
    requires v == LTable(t) && !IsArray(t)
    ensures r.Ok? <==> Supported(v)
    ensures r.Ok? ==> Reads(v, r.value)
    ensures Supported(v) && Clear(v) ==> r == Ok(Value(v))
    decreases v, 0
  {
    hide IsArray, Value, NameOf, Reads, SetMember, Visited;
    var out: map<string, Json> := map[];
    var todo := t.Keys;
    ghost var order: seq<Key>, parts: map<Key, Json> := [], map[];
    VisitedNone(t);
    while todo != {}
      invariant forall k :: k in order ==> k in parts && !k.KBool?
      invariant Visited(t, todo, order, parts) && out == Built(order, parts)
      invariant todo <= t.Keys
      invariant forall k :: k in t && k !in todo ==> !k.KBool? && Supported(t[k])
      invariant Clear(v) ==> SoFar(t, todo, out)
      decreases |todo|
    {
      var k :| k in todo;
      if k.KBool? { return Err; }
      var item := Read(t[k]);
      if item.Err? { return Err; }
      ghost var before := out;
      out := out[NameOf(k) := item.value];
      if k == KStr(UNDER) && TYPE !in out { out := out[TYPE := out[NameOf(k)]]; }
      SetIs(before, k, item.value);
      VisitedMore(t, todo, order, parts, k, item.value);
      order, parts := order + [k], parts[k := item.value];
      if Clear(v) { SoFarMore(t, todo, before, k, out); }
      todo := todo - {k};
    }
    if Clear(v) { SoFarAll(v, t, out); }
    VisitedAll(v, t, order, parts);
    return Ok(Obj(out));
  }

  /** What the object holds when some keys are still to be visited. */
  ghost predicate SoFar(t: map<Key, Lua>, todo: set<Key>, out: map<string, Json>) {
    && (forall k :: k in t && k !in todo ==> Set(t, k, out))
    && (forall n :: n in out ==> ByKey(t, todo, n) || (n == TYPE && KStr(UNDER) in t && KStr(UNDER) !in todo))
    && (KStr(UNDER) in t && KStr(UNDER) !in todo ==>
          UNDER in out && TYPE in out && (ByKey(t, todo, TYPE) || out[TYPE] == out[UNDER]))
  }

  ghost predicate Set(t: map<Key, Lua>, k: Key, out: map<string, Json>)
    requires k in t
  {
    !k.KBool? && Supported(t[k]) && Clear(t[k]) && NameOf(k) in out && out[NameOf(k)] == Value(t[k])
  }

  ghost predicate ByKey(t: map<Key, Lua>, todo: set<Key>, n: string) {
    exists k :: k in t && k !in todo && !k.KBool? && NameOf(k) == n
  }

  lemma SoFarMore(t: map<Key, Lua>, todo: set<Key>, before: map<string, Json>, k: Key, out: map<string, Json>)
    requires SoFar(t, todo, before) && NoClash(t) && k in t && k in todo && !k.KBool? && Supported(t[k]) && Clear(t[k])
    requires var set1 := before[NameOf(k) := Value(t[k])];
      out == if k == KStr(UNDER) && TYPE !in set1 then set1[TYPE := Value(t[k])] else set1
    ensures SoFar(t, todo - {k}, out)
  {
    hide Value, Supported, Clear;
    assert NameOf(KStr(UNDER)) == UNDER;
    forall m | m in t && m !in todo - {k} ensures Set(t, m, out) {
      if m != k { assert Set(t, m, before); }
    }
    forall n | n in out ensures ByKey(t, todo - {k}, n) || (n == TYPE && KStr(UNDER) in t && KStr(UNDER) !in todo - {k}) {
      if n == NameOf(k) {} else if n in before && ByKey(t, todo, n) {}
    }
    if ByKey(t, todo, TYPE) {}
  }

  lemma ValueObj(v: Lua, t: map<Key, Lua>)
    requires v == LTable(t) && !IsArray(t) && Clear(v) && Supported(v)
    ensures Value(v) == Obj(Typed(Named(v), t))
  {
  }

  lemma NamedFacts(v: Lua, t: map<Key, Lua>)
    requires v == LTable(t) && !IsArray(t) && Clear(v) && Supported(v)
    ensures forall k :: k in t ==> Set(t, k, Named(v))
    ensures forall n :: n in Named(v) ==> exists k :: k in t && !k.KBool? && NameOf(k) == n
  {
    hide IsArray, Value, Typed, ByKey;
  }

  lemma SoFarAll(v: Lua, t: map<Key, Lua>, out: map<string, Json>)
    requires v == LTable(t) && !IsArray(t) && SoFar(t, {}, out) && Clear(v) && Supported(v)
    ensures Value(v) == Obj(out)
  {
    hide Value, Clear, Supported, IsArray, NameOf, Named, SoFar, Set, Typed;
    ValueObj(v, t);
    NamedFacts(v, t);
    SoFarTyped(t, out, Named(v));
  }

  lemma SoFarTyped(t: map<Key, Lua>, out: map<string, Json>, named: map<string, Json>)
    requires SoFar(t, {}, out) && forall k :: k in t ==> Set(t, k, named)
    requires forall n :: n in named ==> exists k :: k in t && !k.KBool? && NameOf(k) == n
    ensures out == Typed(named, t)
  {
    hide Value, Clear, Supported;
    forall n | n in named ensures n in out && out[n] == named[n] {
      var k :| k in t && !k.KBool? && NameOf(k) == n;
      assert Set(t, k, out) && Set(t, k, named);
    }
    SoFarRest(t, out, named);
  }

  lemma SoFarRest(t: map<Key, Lua>, out: map<string, Json>, named: map<string, Json>)
    requires SoFar(t, {}, out) && forall k :: k in t ==> Set(t, k, named)
    requires forall n :: n in named ==> n in out && out[n] == named[n]
    ensures out == Typed(named, t)
  {
    assert NameOf(KStr(UNDER)) == UNDER;
    if KStr(UNDER) in t { assert Set(t, KStr(UNDER), named); }
    forall n ensures ByKey(t, {}, n) ==> n in named { ByKeyNamed(t, n, named); }
    hide NameOf, Value, Clear, Supported, Set, ByKey;
  }

  lemma ByKeyNamed(t: map<Key, Lua>, n: string, named: map<string, Json>)
    requires forall k :: k in t ==> Set(t, k, named)
    ensures ByKey(t, {}, n) ==> n in named
  {
    hide Value, Clear, Supported;
    if ByKey(t, {}, n) {
      var k :| k in t && !k.KBool? && NameOf(k) == n;
      assert Set(t, k, named);
    }
  }

  // Round trip.

  /** `@type` and `_` each filled in from the other. */
  function Full(m: map<string, Json>): map<string, Json> {
    if TYPE in m && UNDER !in m then m[UNDER := m[TYPE]]
    else if UNDER in m && TYPE !in m then m[TYPE := m[UNDER]]
    else m
  }

  /** What a tree becomes: `_` and `@type` completed, empty objects turned into
      empty arrays. */
  function Normal(j: Json): Json
    decreases j
  {
    match j
    case Arr(items) => Arr(seq(|items|, i requires 0 <= i < |items| => Normal(items[i])))
    case Obj(members) => if members == map[] then Arr([]) else Obj(Full(map k | k in members :: Normal(members[k])))
    case _ => j
  }

  ghost predicate Faithful(j: Json) {
    Supported(Push(j)) && Clear(Push(j)) && Value(Push(j)) == Normal(j)
  }

  /** Pushing a tree gives a table that can be read whatever the order of visits,
      and it says the normal form of the tree. */
  lemma {:induction false} PushedIsNormal(j: Json)
    requires Plain(j)
    ensures Faithful(j)
    decreases j
  {
    match j {
      case Arr(items) =>
        forall i | 0 <= i < |items| ensures Faithful(items[i]) { PushedIsNormal(items[i]); }
        PushedArray(items);
      case Obj(members) =>
        forall k | k in members ensures Faithful(members[k]) { PushedIsNormal(members[k]); }
        PushedObject(members);
      case Bool(_) | Int(_) | Float(_) | Str(_) =>
    }
  }

  lemma PushedArray(items: seq<Json>)
    requires forall i :: 0 <= i < |items| ==> Faithful(items[i])
    ensures Faithful(Arr(items))
  {
    var t := Push(Arr(items)).entries;
    ArrayTable(items, t);
    hide Push, Supported, Clear, Value, Normal, IsArray, Range;
    forall k | k in t ensures Readily(t[k]) {
      assert Faithful(items[k.i - 1]);
      FaithfulReads(items[k.i - 1]);
    }
    TableReads(t);
    PushedItems(items, t);
  }

  ghost predicate Readily(v: Lua) { Supported(v) && Clear(v) }

  lemma FaithfulReads(j: Json)
    requires Faithful(j)
    ensures Readily(Push(j))
  {
  }

  lemma TableReads(t: map<Key, Lua>)
    requires forall k :: k in t ==> Readily(t[k])
    requires IsArray(t) || (NoClash(t) && forall k :: k in t ==> !k.KBool?)
    ensures Supported(LTable(t)) && Clear(LTable(t))
  {
    hide IsArray, NoClash;
  }

  lemma ArrayTable(items: seq<Json>, t: map<Key, Lua>)
    requires Push(Arr(items)) == LTable(t)
    ensures IsArray(t) && t.Keys == Range(|items|) && |t| == |items|
    ensures forall k :: k in t ==> k.KInt? && 1 <= k.i <= |items| && t[k] == Push(items[k.i - 1])
  {
    RangeSize(|items|);
    assert t.Keys == Range(|items|) && |t| == |t.Keys|;
  }

  lemma NormalItems(items: seq<Json>)
    ensures Normal(Arr(items)).Arr? && |Normal(Arr(items)).items| == |items|
    ensures forall i :: 0 <= i < |items| ==> Normal(Arr(items)).items[i] == Normal(items[i])
  {
  }

  lemma FaithfulAt(t: map<Key, Lua>, i: nat, j: Json)
    requires KInt(i + 1) in t && t[KInt(i + 1)] == Push(j) && Faithful(j)
    ensures AtIndex(t, i, Normal(j))
  {
  }

  lemma PushedItems(items: seq<Json>, t: map<Key, Lua>)
    requires Push(Arr(items)) == LTable(t) && (forall i :: 0 <= i < |items| ==> Faithful(items[i]))
    requires Supported(LTable(t)) && Clear(LTable(t))
    ensures Value(LTable(t)) == Normal(Arr(items))
  {
    hide Push, Value, Normal, Supported, Clear, IsArray, Range, Faithful, AtIndex;
    ArrayTable(items, t);
    NormalItems(items);
    var out := Normal(Arr(items)).items;
    forall i | 0 <= i < |out| ensures AtIndex(t, i, out[i]) {
      KeyRange(t, KInt(i + 1));
      FaithfulAt(t, i, items[i]);
    }
    ValueArr(LTable(t), t, out);
  }

  lemma PushedObject(members: map<string, Json>)
    requires forall k :: k in members ==> Faithful(members[k])
    ensures Faithful(Obj(members))
  {
    var t := Push(Obj(members)).entries;
    if members == map[] {
      assert t == map[];
      assert Range(0) == {};
      ValueArr(LTable(t), t, []);
    } else {
      PushedMembers(members, t);
      ValueObj(LTable(t), t);
      PushedNames(members, t);
    }
  }

  lemma ObjectTable(members: map<string, Json>, t: map<Key, Lua>)
    requires Push(Obj(members)) == LTable(t)
    ensures t.Keys == MemberKeys(members)
    ensures forall k :: k in t ==> k.KStr? && Source(members, k.s) in members && t[k] == Push(members[Source(members, k.s)])
    ensures members != map[] ==> !IsArray(t)
  {
    if members != map[] {
      var name :| name in members;
      assert KStr(name) in t && KStr(name) !in Range(|t|);
    }
  }

  lemma PushedMembers(members: map<string, Json>, t: map<Key, Lua>)
    requires Push(Obj(members)) == LTable(t) && members != map[] && forall k :: k in members ==> Faithful(members[k])
    ensures !IsArray(t) && Supported(LTable(t)) && Clear(LTable(t))
    ensures t.Keys == MemberKeys(members) && forall k :: k in t ==> t[k] == Push(members[Source(members, k.s)])
  {
    ObjectTable(members, t);
    hide Push, Supported, Clear, Value, Normal, IsArray, Range, NoClash, Faithful, Readily, Source;
    NoClashNames(members, t);
    forall k | k in t ensures Readily(t[k]) { FaithfulReads(members[Source(members, k.s)]); }
    TableReads(t);
  }

  lemma NoClashNames(members: map<string, Json>, t: map<Key, Lua>)
    requires t.Keys == MemberKeys(members)
    ensures NoClash(t) && forall k :: k in t ==> !k.KBool?
  {
    hide NameOf;
    forall k, m | k in t && m in t && NameOf(k) == NameOf(m) ensures k == m { NameIsKey(members, k); NameIsKey(members, m); }
  }

  lemma PushedNames(members: map<string, Json>, t: map<Key, Lua>)
    requires Push(Obj(members)) == LTable(t) && members != map[] && forall k :: k in members ==> Faithful(members[k])
    requires !IsArray(t) && Supported(LTable(t)) && Clear(LTable(t))
    requires t.Keys == MemberKeys(members) && forall k :: k in t ==> t[k] == Push(members[Source(members, k.s)])
    ensures Obj(Typed(Named(LTable(t)), t)) == Normal(Obj(members))
  {
    hide Push, Supported, Clear, IsArray, Named, Normal, Faithful, Set, Typed, Value, Range, NameOf;
    NamedFacts(LTable(t), t);
    var named := Named(LTable(t));
    forall k | k in t ensures k.s in named && named[k.s] == Normal(members[Source(members, k.s)]) {
      NamedFaithful(t, k, named, members[Source(members, k.s)]);
    }
    forall n | n in named ensures KStr(n) in t {
      var k :| k in t && !k.KBool? && NameOf(k) == n;
      NameIsKey(members, k);
    }
    TypedFull(members, named, t);
    NormalObj(members);
  }

  lemma NameIsKey(members: map<string, Json>, k: Key)
    requires k in MemberKeys(members)
    ensures k.KStr? && NameOf(k) == k.s && k == KStr(k.s)
  {
  }

  lemma NamedFaithful(t: map<Key, Lua>, k: Key, named: map<string, Json>, j: Json)
    requires k in t && k.KStr? && Set(t, k, named) && t[k] == Push(j) && Faithful(j)
    ensures k.s in named && named[k.s] == Normal(j)
  {
  }

  function Plainly(members: map<string, Json>): map<string, Json> {
    map k | k in members :: Normal(members[k])
  }

  lemma NormalObj(members: map<string, Json>)
    requires members != map[]
    ensures Normal(Obj(members)) == Obj(Full(Plainly(members)))
  {
  }

  lemma TypedFull(members: map<string, Json>, named: map<string, Json>, t: map<Key, Lua>)
    requires t.Keys == MemberKeys(members)
    requires forall k :: k in t ==> k.s in named && named[k.s] == Normal(members[Source(members, k.s)])
    requires forall n :: n in named ==> KStr(n) in t
    ensures Typed(named, t) == Full(Plainly(members))
  {
    hide Normal;
    var full := Full(Plainly(members));
    forall n | n in members ensures n in named && named[n] == Normal(members[n]) { assert KStr(n) in t; }
    if TYPE in members { assert KStr(UNDER) in t; }
    if UNDER in members { assert KStr(UNDER) in t; }
    forall n ensures n in named <==> n in members || (n == UNDER && TYPE in members) {
      if n in named { assert KStr(n) in MemberKeys(members); }
    }
  }

  /** The normal form is normal. */
  lemma {:induction false} NormalTwice(j: Json)
    ensures Normal(Normal(j)) == Normal(j)
    decreases j
  {
    match j {
      case Arr(items) =>
        forall i | 0 <= i < |items| ensures Normal(Normal(items[i])) == Normal(items[i]) { NormalTwice(items[i]); }
      case Obj(members) =>
        if members != map[] {
          forall k | k in members ensures Normal(Normal(members[k])) == Normal(members[k]) { NormalTwice(members[k]); }
          var once := Normal(j).members;
          assert once != map[];
          assert (map k | k in once :: Normal(once[k])) == once;
        }
      case _ =>
    }
  }

  /** In normal form: no object is empty, and every object has `_` and `@type`
      both or neither. */
  predicate Complete(j: Json)
    decreases j
  {
    match j
    case Arr(items) => forall i :: 0 <= i < |items| ==> Complete(items[i])
    case Obj(members) =>
      members != map[] && (TYPE in members <==> UNDER in members) && forall k :: k in members ==> Complete(members[k])
    case _ => true
  }

  /** The round trip is the identity exactly on the trees in normal form. */
  lemma {:induction false} NormalExactly(j: Json)
    ensures Normal(j) == j <==> Complete(j)
    decreases j
  {
    match j {
      case Arr(items) =>
        forall i | 0 <= i < |items| ensures Normal(items[i]) == items[i] <==> Complete(items[i]) { NormalExactly(items[i]); }
        ArrExactly(items);
      case Obj(members) =>
        forall k | k in members ensures Normal(members[k]) == members[k] <==> Complete(members[k]) { NormalExactly(members[k]); }
        if members != map[] { ObjExactly(members); }
      case Null | Bool(_) | Int(_) | Float(_) | Str(_) =>
    }
  }

  lemma ArrExactly(items: seq<Json>)
    ensures Normal(Arr(items)) == Arr(items) <==> forall i :: 0 <= i < |items| ==> Normal(items[i]) == items[i]
  {
    NormalItems(items);
    var n := Normal(Arr(items)).items;
    hide Normal;
    if forall i :: 0 <= i < |items| ==> n[i] == items[i] { assert n == items; }
  }

  lemma ObjExactly(members: map<string, Json>)
    requires members != map[]
    ensures Normal(Obj(members)) == Obj(members) <==>
              (TYPE in members <==> UNDER in members) && forall k :: k in members ==> Normal(members[k]) == members[k]
  {
    NormalObj(members);
    var m := Plainly(members);
    hide Normal;
    assert m.Keys == members.Keys;
    if Full(m) == members {
      assert forall k :: k in members ==> k in m && m[k] == members[k];
    }
    if (TYPE in members <==> UNDER in members) && forall k :: k in members ==> m[k] == members[k] { assert m == members; }
  }

  /** `lua_pushjson` followed by `lua_getjson`. */
  method PushAndRead(j: Json) returns (r: Result<Json>)
    requires Plain(j)
    ensures r == Ok(Normal(j))
  {
    PushedIsNormal(j);
    var v := PushValue(j);
    r := Read(v);
  }

  /** The type of an object, spelled out: it is in a pushed table under both names,
      and a table that has it under one of them reads back with both. */
  lemma TypeHasTwoNames(name: string)
    ensures Push(Obj(map["@type" := Str(name)])) == LTable(map[KStr("@type") := LStr(name), KStr("_") := LStr(name)])
    ensures var v := LTable(map[KStr("_") := LStr(name)]);
      Supported(v) && Clear(v) && Value(v) == Obj(map["@type" := Str(name), "_" := Str(name)])
  {
    assert |TYPE| == 5 && |UNDER| == 1;
    PushedType(name);
    ReadType(name);
  }

  lemma PushedType(name: string)
    ensures Push(Obj(map[TYPE := Str(name)])) == LTable(map[KStr(TYPE) := LStr(name), KStr(UNDER) := LStr(name)])
  {
    assert |TYPE| == 5 && |UNDER| == 1;
    assert Push(Str(name)) == LStr(name);
    PushObj(map[TYPE := Str(name)], map[KStr(TYPE) := LStr(name), KStr(UNDER) := LStr(name)]);
  }

  lemma ReadType(name: string)
    ensures var v := LTable(map[KStr(UNDER) := LStr(name)]);
      Supported(v) && Clear(v) && Value(v) == Obj(map[TYPE := Str(name), UNDER := Str(name)])
  {
    var t := map[KStr(UNDER) := LStr(name)];
    var v := LTable(t);
    NotInRange(t, KStr(UNDER));
    assert Supported(LStr(name)) && Clear(LStr(name)) && NoClash(t);
    assert forall k :: k in t ==> k == KStr(UNDER) && t[k] == LStr(name);
    assert Supported(v);
    assert Clear(v);
    assert |TYPE| == 5 && |UNDER| == 1;
    assert Value(LStr(name)) == Str(name);
    assert KStr(UNDER) in t && NameOf(KStr(UNDER)) == UNDER;
    assert Named(v) == map[UNDER := Str(name)];
    assert Typed(Named(v), t) == map[TYPE := Str(name), UNDER := Str(name)];
  }
}
