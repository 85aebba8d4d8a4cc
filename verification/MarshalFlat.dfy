/** The reference-free stream of a value.  It is the inverse of unfolding, so every
    accepted stream has the fingerprint of the flat stream of what it denotes. */
module MarshalFlat {
  import opened Octets
  import opened MarshalValue
  import opened MarshalReader

  /** `v` written with long tags, no flags and no back references. */
  function Flat(v: Value): (r: Bytes)
    requires WellFormed(v)
    ensures |r| >= 1
    decreases v, 1
  {
    match v
    case Atom(kind, payload) => [Tag(v)] + payload
    case Long(count, digits) => [Tag(v)] + (count + digits)
    case Raw(raw) => [Tag(v)] + (LittleEndian4(|raw|) + raw)
    case Text(raw) => [Tag(v)] + (LittleEndian4(|raw|) + raw)
    case Tuple(items) => [Tag(v)] + (LittleEndian4(|items|) + FlatAll(items))
    case FrozenSet(items) => [Tag(v)] + (LittleEndian4(|items|) + FlatAll(items))
    case Code(head, fields, line, tables) => 
      assert forall c :: c in fields || c in tables ==> c in Children(v);
      [Tag(v)] + (head + (FlatAll(fields) + (line + FlatAll(tables))))
    case Slice(parts) => [Tag(v)] + FlatAll(parts)
  }

  function FlatAll(vs: seq<Value>): (r: Bytes)
    requires forall v :: v in vs ==> WellFormed(v)
    ensures |r| >= |vs|
    decreases vs, 0
  {
    if vs == [] then [] else Flat(vs[0]) + FlatAll(vs[1..])
  }

  /** How many values the flat stream holds. */
  function Nodes(v: Value): (n: nat)
    ensures n >= 1
    decreases v, 1
  {
    match v
    case Tuple(items) => 1 + NodesAll(items)
    case FrozenSet(items) => 1 + NodesAll(items)
    case Code(_, fields, _, tables) => 1 + NodesAll(fields) + NodesAll(tables)
    case Slice(parts) => 1 + NodesAll(parts)
    case _ => 1
  }

  function NodesAll(vs: seq<Value>): (n: nat)
    ensures n >= |vs|
    decreases vs, 0
  {
    if vs == [] then 0 else Nodes(vs[0]) + NodesAll(vs[1..])
  }

  /** `v` nests at most `levels` deep and has slices only where the layout knows them. */
  predicate Fits(slices: bool, v: Value, levels: int)
    decreases v
  {
    && levels >= 0
    && (v.Slice? ==> slices)
    && forall c :: c in Children(v) ==> Fits(slices, c, levels - 1)
  }

  predicate At(data: Bytes, offset: nat, x: Bytes) {
    offset + |x| <= |data| && data[offset..offset + |x|] == x
  }

  lemma AtSplit(data: Bytes, offset: nat, x: Bytes, y: Bytes)
    requires At(data, offset, x + y)
    ensures At(data, offset, x) && At(data, offset + |x|, y)
  {
    assert x == (x + y)[..|x|] && y == (x + y)[|x|..];
  }

  lemma {:induction false} ParseFlatMore(slices: bool, data: Bytes, st: State, depth: nat, vs: seq<Value>, done: seq<Value>)
    requires Sane(data, st) && |data| < 0x8000_0000
    requires (forall v :: v in vs ==> WellFormed(v) && Fits(slices, v, MAX_DEPTH - depth))
    requires forall v :: v in done ==> WellFormed(v)
    requires At(data, st.offset, FlatAll(vs)) && NodesAll(vs) <= st.remaining
    ensures ParseMore(slices, data, st, depth, |vs|, done)
         == Some((done + vs, State(st.offset + |FlatAll(vs)|, st.refs, st.remaining - NodesAll(vs))))
    decreases vs, 0
  {
    hide ParseValue;
    hide ParseMore;
    if vs == [] {
      MoreIsDone(slices, data, st, depth, done);
      assert done + vs == done;
    } else {
      MoreIsOneThenRest(slices, data, st, depth, |vs|, done);
      AtSplit(data, st.offset, Flat(vs[0]), FlatAll(vs[1..]));
      ParseFlat(slices, data, st, depth, vs[0]);
      var st1 := State(st.offset + |Flat(vs[0])|, st.refs, st.remaining - Nodes(vs[0]));
      ParseFlatMore(slices, data, st1, depth, vs[1..], done + [vs[0]]);
      assert done + [vs[0]] + vs[1..] == done + vs;
    }
  }

  lemma {:induction false} ParseFlatMany(slices: bool, data: Bytes, st: State, depth: nat, vs: seq<Value>)
    requires Sane(data, st) && |data| < 0x8000_0000
    requires (forall v :: v in vs ==> WellFormed(v) && Fits(slices, v, MAX_DEPTH - depth))
    requires At(data, st.offset, FlatAll(vs)) && NodesAll(vs) <= st.remaining
    ensures ParseMany(slices, data, st, depth, |vs|)
         == Some((vs, State(st.offset + |FlatAll(vs)|, st.refs, st.remaining - NodesAll(vs))))
    decreases vs, 1
  {
    ParseFlatMore(slices, data, st, depth, vs, []);
    assert [] + vs == vs;
  }

  lemma FitsChildren(slices: bool, v: Value, depth: nat)
    requires WellFormed(v) && Fits(slices, v, MAX_DEPTH - depth)
    ensures forall c :: c in Children(v) ==> WellFormed(c) && Fits(slices, c, MAX_DEPTH - (depth + 1))
  {
    assert MAX_DEPTH - depth - 1 == MAX_DEPTH - (depth + 1);
  }

  lemma TakeAt(data: Bytes, st: State, x: Bytes)
    requires Sane(data, st) && At(data, st.offset, x)
    ensures TakeBytes(data, st, |x|) == Some((x, st.(offset := st.offset + |x|)))
  {
  }

  lemma SizeAt(data: Bytes, st: State, n: nat)
    requires Sane(data, st) && n < 0x8000_0000 && At(data, st.offset, LittleEndian4(n))
    ensures TakeSize(data, st, false) == Some((n, st.(offset := st.offset + 4)))
  {
    TakeAt(data, st, LittleEndian4(n));
  }

  lemma {:induction false} ParseFlatLeaf(slices: bool, data: Bytes, st: State, depth: nat, v: Value)
    requires Sane(data, st) && |data| < 0x8000_0000 && WellFormed(v) && IsLeaf(v)
    requires At(data, st.offset, Flat(v)[1..])
    ensures ParseBody(slices, data, st, depth, Tag(v) as char)
         == Some((v, st.(offset := st.offset + |Flat(v)| - 1)))
  {
    match v
    case Atom(_, payload) =>
      assert Flat(v)[1..] == payload;
      TakeAt(data, st, payload);
    case Long(count, digits) =>
      assert Flat(v)[1..] == count + digits;
      AtSplit(data, st.offset, count, digits);
      TakeAt(data, st, count);
      TakeAt(data, st.(offset := st.offset + 4), digits);
    case Raw(raw) => ParseFlatString(data, st, v);
    case Text(raw) => ParseFlatString(data, st, v);
  }

  lemma ParseFlatString(data: Bytes, st: State, v: Value)
    requires Sane(data, st) && |data| < 0x8000_0000 && WellFormed(v) && (v.Raw? || v.Text?)
    requires At(data, st.offset, Flat(v)[1..])
    ensures ParseString(data, st, Tag(v) as char) == Some((v, st.(offset := st.offset + |Flat(v)| - 1)))
  {
    assert Flat(v)[1..] == LittleEndian4(|v.raw|) + v.raw;
    AtSplit(data, st.offset, LittleEndian4(|v.raw|), v.raw);
    SizeAt(data, st, |v.raw|);
    TakeAt(data, st.(offset := st.offset + 4), v.raw);
  }

  lemma {:induction false} ParseFlatContainer(slices: bool, data: Bytes, st: State, depth: nat, v: Value)
    requires Sane(data, st) && |data| < 0x8000_0000 && WellFormed(v) && (v.Tuple? || v.FrozenSet?)
    requires Fits(slices, v, MAX_DEPTH - depth)
    requires At(data, st.offset, Flat(v)[1..]) && NodesAll(v.items) <= st.remaining
    ensures ParseContainer(slices, data, st, depth, Tag(v) as char)
         == Some((v, State(st.offset + |Flat(v)| - 1, st.refs, st.remaining - NodesAll(v.items))))
    decreases v, 0
  {
    hide ParseMany;
    var items := v.items;
    FitsChildren(slices, v, depth);
    assert Flat(v)[1..] == LittleEndian4(|items|) + FlatAll(items);
    AtSplit(data, st.offset, LittleEndian4(|items|), FlatAll(items));
    SizeAt(data, st, |items|);
    ParseFlatMany(slices, data, st.(offset := st.offset + 4), depth + 1, items);
  }

  lemma CodeAt(slices: bool, data: Bytes, offset: nat, v: Value, depth: nat)
    requires WellFormed(v) && v.Code? && At(data, offset, Flat(v)[1..]) && Fits(slices, v, MAX_DEPTH - depth)
    ensures forall c :: c in v.fields || c in v.tables ==> WellFormed(c) && Fits(slices, c, MAX_DEPTH - (depth + 1))
    ensures var f := FlatAll(v.fields);
            && At(data, offset, v.head)
            && At(data, offset + 20, f)
            && At(data, offset + 20 + |f|, v.line)
            && At(data, offset + 24 + |f|, FlatAll(v.tables))
            && |Flat(v)| == 25 + |f| + |FlatAll(v.tables)|
  {
    FitsChildren(slices, v, depth);
    assert forall c :: c in v.fields || c in v.tables ==> c in Children(v);
    var f, t := FlatAll(v.fields), FlatAll(v.tables);
    assert Flat(v)[1..] == v.head + (f + (v.line + t));
    AtSplit(data, offset, v.head, f + (v.line + t));
    AtSplit(data, offset + 20, f, v.line + t);
    AtSplit(data, offset + 20 + |f|, v.line, t);
  }

  lemma {:induction false} ParseFlatCode(slices: bool, data: Bytes, st: State, depth: nat, v: Value)
    requires Sane(data, st) && |data| < 0x8000_0000 && WellFormed(v) && v.Code?
    requires Fits(slices, v, MAX_DEPTH - depth)
    requires At(data, st.offset, Flat(v)[1..]) && NodesAll(v.fields) + NodesAll(v.tables) <= st.remaining
    ensures ParseCode(slices, data, st, depth)
         == Some((v, State(st.offset + |Flat(v)| - 1, st.refs, st.remaining - NodesAll(v.fields) - NodesAll(v.tables))))
    decreases v, 0
  {
    hide ParseMany;
    hide Fits;
    CodeAt(slices, data, st.offset, v, depth);
    var f := FlatAll(v.fields);
    TakeAt(data, st, v.head);
    ParseFlatMany(slices, data, st.(offset := st.offset + 20), depth + 1, v.fields);
    var st2 := State(st.offset + 20 + |f|, st.refs, st.remaining - NodesAll(v.fields));
    TakeAt(data, st2, v.line);
    ParseFlatMany(slices, data, st2.(offset := st2.offset + 4), depth + 1, v.tables);
  }

  lemma {:induction false} ParseFlat(slices: bool, data: Bytes, st: State, depth: nat, v: Value)
    requires Sane(data, st) && |data| < 0x8000_0000 && WellFormed(v)
    requires Fits(slices, v, MAX_DEPTH - depth)
    requires At(data, st.offset, Flat(v)) && Nodes(v) <= st.remaining
    ensures ParseValue(slices, data, st, depth)
         == Some((v, State(st.offset + |Flat(v)|, st.refs, st.remaining - Nodes(v))))
    decreases v, 2
  {
    hide ParseBody;
    var body := Flat(v)[1..];
    assert Flat(v) == [Tag(v)] + body;
    AtSplit(data, st.offset, [Tag(v)], body);
    var st1 := State(st.offset + 1, st.refs, st.remaining - 1);
    TakeAt(data, st.(remaining := st.remaining - 1), [Tag(v)]);
    ParseFlatBody(slices, data, st1, depth, v);
  }

  lemma {:induction false} ParseFlatBody(slices: bool, data: Bytes, st1: State, depth: nat, v: Value)
    requires Sane(data, st1) && |data| < 0x8000_0000 && WellFormed(v)
    requires Fits(slices, v, MAX_DEPTH - depth)
    requires At(data, st1.offset, Flat(v)[1..]) && Nodes(v) - 1 <= st1.remaining
    ensures ParseBody(slices, data, st1, depth, Tag(v) as char)
         == Some((v, State(st1.offset + |Flat(v)| - 1, st1.refs, st1.remaining - (Nodes(v) - 1))))
    decreases v, 1
  {
    hide ParseMany;
    hide ParseCode;
    hide ParseContainer;
    hide ParseString;
    hide ValidUtf8;
    if IsLeaf(v) {
      ParseFlatLeaf(slices, data, st1, depth, v);
    } else if v.Tuple? || v.FrozenSet? {
      ParseFlatContainer(slices, data, st1, depth, v);
    } else if v.Code? {
      ParseFlatCode(slices, data, st1, depth, v);
    } else {
      FitsChildren(slices, v, depth);
      assert Flat(v)[1..] == FlatAll(v.parts);
      ParseFlatMany(slices, data, st1, depth + 1, v.parts);
    }
  }

  /** Unfolding inverts flattening, for every code value within the reader's budgets. */
  lemma FlatRoundTrip(interpreter: Interpreter, v: Value)
    requires Supported(interpreter) && WellFormed(v) && v.Code?
    requires |Flat(v)| <= MAX_CACHE_BYTES && Nodes(v) <= MAX_VALUES && Fits(HasSlices(interpreter), v, MAX_DEPTH)
    ensures Unfold(interpreter, Flat(v)) == Some(v)
  {
    hide ParseValue;
    var data := Flat(v);
    assert data[0] == Tag(v);
    assert At(data, 0, data);
    ParseFlat(HasSlices(interpreter), data, State(0, [], MAX_VALUES), 0, v);
  }

  lemma ParsedCode(slices: bool, data: Bytes, st: State, depth: nat)
    requires Sane(data, st) && st.offset < |data| && data[st.offset] % 128 == 'c' as int
    requires ParseValue(slices, data, st, depth).Some?
    ensures ParseValue(slices, data, st, depth).value.0.Code?
  {
    hide ParseMany;
    var st1 := State(st.offset + 1, st.refs, st.remaining - 1);
    var st2 := if data[st.offset] >= 128 then st1.(refs := st1.refs + [None]) else st1;
    assert ParseBody(slices, data, st2, depth, 'c') == ParseCode(slices, data, st2, depth);
  }

  /** Sharing, flags and short tags leave no trace: an accepted stream has the
      fingerprint of the flat stream of its value, when that one fits the budgets. */
  lemma SharingIsInvisible(hash: Hash, interpreter: Interpreter, data: Bytes)
    requires Unfold(interpreter, data).Some?
    ensures var v := Unfold(interpreter, data).value;
            && v.Code?
            && (|Flat(v)| <= MAX_CACHE_BYTES && Nodes(v) <= MAX_VALUES && Fits(HasSlices(interpreter), v, MAX_DEPTH)
                ==> Unfold(interpreter, Flat(v)).Some?
                    && DigestOf(hash, Unfold(interpreter, Flat(v)).value) == DigestOf(hash, v))
  {
    hide ParseValue;
    var v := Unfold(interpreter, data).value;
    ParsedCode(HasSlices(interpreter), data, State(0, [], MAX_VALUES), 0);
    if |Flat(v)| <= MAX_CACHE_BYTES && Nodes(v) <= MAX_VALUES && Fits(HasSlices(interpreter), v, MAX_DEPTH) {
      FlatRoundTrip(interpreter, v);
    }
  }
}
