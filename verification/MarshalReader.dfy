/** The bounded marshal reader: what a stream denotes, the reader that digests it
    without building the tree, and the reference-free stream of a value. */
module MarshalReader {
  import opened Octets
  import opened MarshalValue

  const MAX_CACHE_BYTES: nat := 16 * 1024 * 1024
  const MAX_VALUES: nat := 250_000
  const MAX_DEPTH: nat := 256

  datatype Interpreter = CPython(major: nat, minor: nat) | OtherInterpreter

  predicate Supported(interpreter: Interpreter) {
    interpreter.CPython? && interpreter.major == 3 && 12 <= interpreter.minor <= 14
  }

  /** Slice constants exist in the 3.14 layout only. */
  predicate HasSlices(interpreter: Interpreter) {
    interpreter.CPython? && interpreter.major == 3 && interpreter.minor == 14
  }

  // ---- what a stream denotes ------------------------------------------------------

  /** Reader position, reference table (unfolded) and remaining value budget. */
  datatype State = State(offset: nat, refs: seq<Option<Value>>, remaining: nat)

  predicate WellFormedRefs(refs: seq<Option<Value>>) {
    forall i :: 0 <= i < |refs| && refs[i].Some? ==> WellFormed(refs[i].value)
  }

  predicate Sane(data: Bytes, st: State) {
    st.offset <= |data| && WellFormedRefs(st.refs)
  }

  /** The reader made progress: it consumed input and budget, and only added references. */
  predicate Advanced(data: Bytes, st: State, st': State) {
    && Sane(data, st')
    && st.offset < st'.offset
    && st'.remaining < st.remaining
    && |st.refs| <= |st'.refs|
  }

  /** The reader did not go back and dropped no reference. */
  predicate Kept(data: Bytes, st: State, st': State) {
    && Sane(data, st')
    && st.offset <= st'.offset
    && st'.remaining <= st.remaining
    && |st.refs| <= |st'.refs|
  }

  function TakeBytes(data: Bytes, st: State, n: int): (r: Option<(Bytes, State)>)
    requires Sane(data, st)
    ensures r.Some? ==> Sane(data, r.value.1) && n >= 0 && |r.value.0| == n && r.value.1.offset == st.offset + n
  {
    if n < 0 || n > |data| - st.offset then None
    else Some((data[st.offset..st.offset + n], st.(offset := st.offset + n)))
  }

  function ParseValue(slices: bool, data: Bytes, st: State, depth: nat): (r: Option<(Value, State)>)
    requires Sane(data, st)
    ensures r.Some? ==> WellFormed(r.value.0) && Advanced(data, st, r.value.1)
    decreases st.remaining, 0
  {
    if depth > MAX_DEPTH || st.remaining == 0 then None
    else
      var (t, st1) :- TakeBytes(data, st.(remaining := st.remaining - 1), 1);
      var flag, kind := t[0] >= 128, (t[0] % 128) as char;
      if kind == 'r' then
        var (b, st2) :- TakeBytes(data, st1, 4);
        var index := Signed4(b);
        if flag || index < 0 || index >= |st2.refs| || st2.refs[index].None? then None
        else Some((st2.refs[index].value, st2))
      else if flag && AtomSize(kind) == 0 then None
      else
        var index := |st1.refs|;
        var st2 := if flag then st1.(refs := st1.refs + [None]) else st1;
        var (v, st3) :- ParseBody(slices, data, st2, depth, kind);
        Some((v, if flag then st3.(refs := st3.refs[index := Some(v)]) else st3))
  }

  function ParseBody(slices: bool, data: Bytes, st: State, depth: nat, kind: char): (r: Option<(Value, State)>)
    requires Sane(data, st)
    ensures r.Some? ==> WellFormed(r.value.0) && Kept(data, st, r.value.1)
    decreases st.remaining, 3
  {
    if AtomSize(kind) >= 0 then
      var (p, st1) :- TakeBytes(data, st, AtomSize(kind));
      Some((Atom(kind, p), st1))
    else if kind == 'l' then
      var (count, st1) :- TakeBytes(data, st, 4);
      var (digits, st2) :- TakeBytes(data, st1, 2 * Abs(Signed4(count)));
      Some((Long(count, digits), st2))
    else if IsString(kind) then ParseString(data, st, kind)
    else if kind == '(' || kind == ')' || kind == '>' then ParseContainer(slices, data, st, depth, kind)
    else if kind == 'c' then ParseCode(slices, data, st, depth)
    else if kind == ':' && slices then
      var (parts, st1) :- ParseMany(slices, data, st, depth + 1, 3);
      Some((Slice(parts), st1))
    else None
  }

  function ParseString(data: Bytes, st: State, kind: char): (r: Option<(Value, State)>)
    requires Sane(data, st)
    ensures r.Some? ==> WellFormed(r.value.0) && Kept(data, st, r.value.1)
  {
    var (size, st1) :- TakeSize(data, st, kind == 'z' || kind == 'Z');
    var (raw, st2) :- TakeBytes(data, st1, size);
    if kind == 's' then Some((Raw(raw), st2))
    else if !Decodes(kind, raw) then None
    else DecodedIsUtf8(kind, raw); Some((Text(raw), st2))
  }

  function ParseContainer(slices: bool, data: Bytes, st: State, depth: nat, kind: char): (r: Option<(Value, State)>)
    requires Sane(data, st)
    ensures r.Some? ==> WellFormed(r.value.0) && Kept(data, st, r.value.1)
    ensures r.Some? ==> |Children(r.value.0)| <= st.remaining && |Children(r.value.0)| <= |data| - st.offset
    ensures Oversized(data, st, kind == ')') ==> r == None
    decreases st.remaining, 2
  {
    var (size, st1) :- TakeSize(data, st, kind == ')');
    if size < 0 || size > st1.remaining || size > |data| - st1.offset then None
    else
      var (items, st2) :- ParseMany(slices, data, st1, depth + 1, size);
      Some((if kind == '>' then FrozenSet(items) else Tuple(items), st2))
  }

  function ParseCode(slices: bool, data: Bytes, st: State, depth: nat): (r: Option<(Value, State)>)
    requires Sane(data, st)
    ensures r.Some? ==> WellFormed(r.value.0) && Kept(data, st, r.value.1)
    decreases st.remaining, 2
  {
    var (head, st1) :- TakeBytes(data, st, 20);
    var (fields, st2) :- ParseMany(slices, data, st1, depth + 1, 8);
    var (line, st3) :- TakeBytes(data, st2, 4);
    var (tables, st4) :- ParseMany(slices, data, st3, depth + 1, 2);
    Some((Code(head, fields, line, tables), st4))
  }

  /** Reads `count` values, in order. */
  function ParseMany(slices: bool, data: Bytes, st: State, depth: nat, count: nat): (r: Option<(seq<Value>, State)>)
    requires Sane(data, st)
    ensures r.Some? ==>
              |r.value.0| == count && (forall v :: v in r.value.0 ==> WellFormed(v)) && Kept(data, st, r.value.1)
    decreases st.remaining, 1, 1
  {
    ParseMore(slices, data, st, depth, count, [])
  }

  /** Reads `count` values and adds them to those in `done`. */
  function ParseMore(slices: bool, data: Bytes, st: State, depth: nat, count: nat, done: seq<Value>)
    : (r: Option<(seq<Value>, State)>)
    requires Sane(data, st) && forall v :: v in done ==> WellFormed(v)
    ensures r.Some? ==>
              && |r.value.0| == |done| + count && (forall v :: v in r.value.0 ==> WellFormed(v))
              && Kept(data, st, r.value.1)
    decreases st.remaining, 1, 0
  {
    if count == 0 then Some((done, st))
    else
      var (v, st1) :- ParseValue(slices, data, st, depth);
      ParseMore(slices, data, st1, depth, count - 1, done + [v])
  }

  lemma MoreIsOneThenRest(slices: bool, data: Bytes, st: State, depth: nat, count: nat, done: seq<Value>)
    requires Sane(data, st) && (forall v :: v in done ==> WellFormed(v)) && count > 0
    ensures ParseMore(slices, data, st, depth, count, done)
         == match ParseValue(slices, data, st, depth)
            case None => None
            case Some((v, st1)) => ParseMore(slices, data, st1, depth, count - 1, done + [v])
  {
  }

  lemma MoreIsDone(slices: bool, data: Bytes, st: State, depth: nat, done: seq<Value>)
    requires Sane(data, st) && forall v :: v in done ==> WellFormed(v)
    ensures ParseMore(slices, data, st, depth, 0, done) == Some((done, st))
  {
  }

  predicate IsString(kind: char) {
    kind == 's' || kind == 't' || kind == 'u' || kind == 'a' || kind == 'A' || kind == 'z' || kind == 'Z'
  }

  predicate Decodes(kind: char, raw: Bytes) {
    if kind == 't' || kind == 'u' then ValidUtf8(raw) else Ascii(raw)
  }

  lemma DecodedIsUtf8(kind: char, raw: Bytes)
    requires Decodes(kind, raw)
    ensures ValidUtf8(raw)
  {
    if kind != 't' && kind != 'u' {
      AsciiIsUtf8(raw);
    }
  }

  /** A one-byte size, or a four-byte signed one. */
  function TakeSize(data: Bytes, st: State, short: bool): (r: Option<(int, State)>)
    requires Sane(data, st)
    ensures r.Some? ==> Sane(data, r.value.1) && r.value.0 < 0x8000_0000 && st.offset <= r.value.1.offset
                        && r.value.1.remaining == st.remaining && r.value.1.refs == st.refs
  {
    if short then
      var (b, st1) :- TakeBytes(data, st, 1);
      Some((b[0], st1))
    else
      var (b, st1) :- TakeBytes(data, st, 4);
      Some((Signed4(b), st1))
  }

  /** The size announced at this point is negative, or beyond the budget or the input left. */
  predicate Oversized(data: Bytes, st: State, short: bool)
    requires Sane(data, st)
  {
    match TakeSize(data, st, short)
    case None => false
    case Some((size, st1)) => size < 0 || size > st1.remaining || size > |data| - st1.offset
  }

  /** The unfolded tree of one complete code body, if the stream is accepted. */
  function Unfold(interpreter: Interpreter, data: Bytes): (r: Option<Value>)
    ensures r.Some? ==> WellFormed(r.value) 
  {
    if !Supported(interpreter) || data == [] || |data| > MAX_CACHE_BYTES || data[0] % 128 != 'c' as int then None
    else
      var (v, st) :- ParseValue(HasSlices(interpreter), data, State(0, [], MAX_VALUES), 0);
      if st.offset == |data| then Some(v) else None
  }

  // ---- the reader -------------------------------------------------------------------

  function DigestRefs(hash: Hash, refs: seq<Option<Value>>): seq<Option<Digest>>
    requires WellFormedRefs(refs)
  {
    seq(|refs|, i requires 0 <= i < |refs| => if refs[i].None? then None else Some(DigestOf(hash, refs[i].value)))
  }

  function DigestsOf(hash: Hash, vs: seq<Value>): (ds: seq<Digest>)
    requires forall v :: v in vs ==> WellFormed(v)
    ensures |ds| == |vs|
  {
    seq(|vs|, i requires 0 <= i < |vs| => DigestOf(hash, vs[i]))
  }

  /** `digest.update(tag + size)`, then each member's digest, sorted for a frozenset. */
  function ContainerHash(hash: Hash, frozen: bool, ds: seq<Digest>): Digest
    requires |ds| < TWO_TO_THE_32
  {
    if frozen then hash(['>' as int] + (LittleEndian4(|ds|) + Concat(Sort(ds))))
    else hash(['(' as int] + (LittleEndian4(|ds|) + Concat(ds)))
  }

  lemma ContainerDigest(hash: Hash, items: seq<Value>)
    requires |items| < TWO_TO_THE_32 && forall v :: v in items ==> WellFormed(v)
    ensures WellFormed(Tuple(items)) && WellFormed(FrozenSet(items))
    ensures DigestOf(hash, Tuple(items)) == ContainerHash(hash, false, DigestsOf(hash, items))
    ensures DigestOf(hash, FrozenSet(items)) == ContainerHash(hash, true, DigestsOf(hash, items))
  {
    assert ChildDigests(hash, Tuple(items)) == DigestsOf(hash, items);
    assert ChildDigests(hash, FrozenSet(items)) == DigestsOf(hash, items);
  }

  /** Arguments, eight fields, first line, then the two tables. */
  function CodeHash(hash: Hash, head: Bytes, fields: seq<Digest>, line: Bytes, tables: seq<Digest>): Digest {
    hash(['c' as int] + (head + Concat(fields) + line + Concat(tables)))
  }

  lemma CodeDigest(hash: Hash, head: Bytes, fields: seq<Value>, line: Bytes, tables: seq<Value>)
    requires forall v :: v in fields + tables ==> WellFormed(v)
    requires WellFormedNode(Code(head, fields, line, tables))
    ensures WellFormed(Code(head, fields, line, tables))
    ensures (forall v :: v in fields ==> WellFormed(v)) && (forall v :: v in tables ==> WellFormed(v))
    ensures DigestOf(hash, Code(head, fields, line, tables))
         == CodeHash(hash, head, DigestsOf(hash, fields), line, DigestsOf(hash, tables))
  {
    var v := Code(head, fields, line, tables);
    assert forall u :: u in fields ==> u in fields + tables;
    assert forall u :: u in tables ==> u in fields + tables;
    assert ChildDigests(hash, v)[..8] == DigestsOf(hash, fields);
    assert ChildDigests(hash, v)[8..] == DigestsOf(hash, tables);
  }

  /** Keeps one fixed-size digest per referenced value, never the value itself. */
  class Reader {
    const hash: Hash
    const data: Bytes
    const slices: bool
    var offset: nat
    var refs: seq<Option<Digest>>
    var remaining: nat
    ghost var trees: seq<Option<Value>>

    ghost predicate Valid()
      reads this
    {
      offset <= |data| && WellFormedRefs(trees) && refs == DigestRefs(hash, trees)
    }

    ghost function Model(): State
      reads this
    {
      State(offset, trees, remaining)
    }

    constructor (hash: Hash, slices: bool, data: Bytes)
      ensures Valid() && Model() == State(0, [], MAX_VALUES)
      ensures this.hash == hash && this.slices == slices && this.data == data
    {
      this.hash, this.slices, this.data := hash, slices, data;
      offset, refs, remaining, trees := 0, [], MAX_VALUES, [];
    }

    method Take(size: int) returns (r: Option<Bytes>)
      requires Valid()
      modifies this`offset
      ensures Valid()
      ensures match TakeBytes(data, old(Model()), size)
              case None => r.None?
              case Some((b, st)) => r == Some(b) && Model() == st
    {
      if size < 0 || size > |data| - offset {
        return None;
      }
      var start := offset;
      offset := offset + size;
      return Some(data[start..offset]);
    }

    /** The digests of `count` values read one after the other. */
    method Values(count: nat, depth: nat) returns (r: Option<seq<Digest>>)
      requires Valid()
      modifies this
      ensures match ParseMany(slices, data, old(Model()), depth, count)
              case None => r.None?
              case Some((vs, st)) => Valid() && r == Some(DigestsOf(hash, vs)) && Model() == st
      decreases remaining, 1
    {
      hide ParseValue;
      hide ParseMore;
      hide DigestOf;
      hide WellFormed;
      var ds: seq<Digest> := [];
      ghost var vs: seq<Value> := [];
      ghost var whole := ParseMany(slices, data, Model(), depth, count);
      while |ds| < count
        invariant Valid() && |vs| == |ds| <= count
        invariant if |ds| == 0 then Model() == old(Model()) else remaining < old(remaining)
        invariant forall v :: v in vs ==> WellFormed(v)
        invariant ds == DigestsOf(hash, vs)
        invariant whole == ParseMore(slices, data, Model(), depth, count - |ds|, vs)
      {
        MoreIsOneThenRest(slices, data, Model(), depth, count - |ds|, vs);
        ghost var one := ParseValue(slices, data, Model(), depth);
        var d := Value(depth);
        if d.None? {
          return None;
        }
        ds, vs := ds + [d.value], vs + [one.value.0];
      }
      MoreIsDone(slices, data, Model(), depth, vs);
      return Some(ds);
    }

    method Value(depth: nat) returns (r: Option<Digest>)
      requires Valid()
      modifies this
      ensures match ParseValue(slices, data, old(Model()), depth)
              case None => r.None?
              case Some((v, st)) => Valid() && r == Some(DigestOf(hash, v)) && Model() == st
      decreases remaining, 0
    {
      hide ParseBody;
      hide DigestOf;
      hide WellFormed;
      if depth > MAX_DEPTH || remaining == 0 {
        return None;
      }
      remaining := remaining - 1;
      var t := Take(1);
      if t.None? {
        return None;
      }
      var flag, kind := t.value[0] >= 128, (t.value[0] % 128) as char;
      if kind == 'r' {
        var b := Take(4);
        if b.None? {
          return None;
        }
        var index := Signed4(b.value);
        if flag || index < 0 || index >= |refs| {
          return None;
        }
        return refs[index];
      }
      if flag && AtomSize(kind) == 0 {
        return None;
      }
      var index := |refs|;
      if flag {
        refs, trees := refs + [None], trees + [None];
      }
      ghost var before := Model();
      r := this.Body(kind, depth);
      if r.None? {
        return None;
      }
      if flag {
        ghost var v := ParseBody(slices, data, before, depth, kind).value.0;
        refs, trees := refs[index := r], trees[index := Some(v)];
      }
    }

    method Body(kind: char, depth: nat) returns (r: Option<Digest>)
      requires Valid()
      modifies this
      ensures match ParseBody(slices, data, old(Model()), depth, kind)
              case None => r.None?
              case Some((v, st)) => Valid() && r == Some(DigestOf(hash, v)) && Model() == st
      decreases remaining, 3
    {
      if AtomSize(kind) >= 0 {
        var p := Take(AtomSize(kind));
        if p.None? {
          return None;
        }
        return Some(hash([kind as int] + p.value));
      } else if kind == 'l' {
        var count := Take(4);
        if count.None? {
          return None;
        }
        var digits := Take(2 * Abs(Signed4(count.value)));
        if digits.None? {
          return None;
        }
        return Some(hash(['l' as int] + (count.value + digits.value)));
      } else if IsString(kind) {
        r := StringBody(kind);
      } else if kind == '(' || kind == ')' || kind == '>' {
        r := ContainerBody(kind, depth);
      } else if kind == 'c' {
        r := CodeBody(depth);
      } else if kind == ':' && slices {
        ghost var before := Model();
        var parts := Values(3, depth + 1);
        if parts.None? {
          return None;
        }
        ghost var v := Slice(ParseMany(slices, data, before, depth + 1, 3).value.0);
        assert ChildDigests(hash, v) == parts.value;
        return Some(hash([':' as int] + Concat(parts.value)));
      } else {
        return None;
      }
    }

    method Size(short: bool) returns (r: Option<int>)
      requires Valid()
      modifies this`offset
      ensures match TakeSize(data, old(Model()), short)
              case None => r.None?
              case Some((n, st)) => Valid() && r == Some(n) && Model() == st
    {
      var b := Take(if short then 1 else 4);
      if b.None? {
        return None;
      }
      return Some(if short then b.value[0] else Signed4(b.value));
    }

    method StringBody(kind: char) returns (r: Option<Digest>)
      requires Valid() && IsString(kind)
      modifies this`offset
      ensures match ParseString(data, old(Model()), kind)
              case None => r.None?
              case Some((v, st)) => Valid() && r == Some(DigestOf(hash, v)) && Model() == st
    {
      var size := Size(kind == 'z' || kind == 'Z');
      if size.None? {
        return None;
      }
      var raw := Take(size.value);
      if raw.None? || (kind != 's' && !Decodes(kind, raw.value)) {
        return None;
      }
      if kind != 's' {
        DecodedIsUtf8(kind, raw.value);
      }
      var tag := if kind == 's' then 's' else 'u';
      return Some(hash([tag as int] + (LittleEndian4(|raw.value|) + raw.value)));
    }

    method ContainerBody(kind: char, depth: nat) returns (r: Option<Digest>)
      requires Valid() && (kind == '(' || kind == ')' || kind == '>')
      modifies this
      ensures match ParseContainer(slices, data, old(Model()), depth, kind)
              case None => r.None?
              case Some((v, st)) => Valid() && r == Some(DigestOf(hash, v)) && Model() == st
      ensures Oversized(data, old(Model()), kind == ')') ==>
                r.None? && Model() == TakeSize(data, old(Model()), kind == ')').value.1
      decreases remaining, 2
    {
      var size := Size(kind == ')');
      if size.None? || size.value < 0 || size.value > remaining || size.value > |data| - offset {
        return None;
      }
      ghost var before := Model();
      var ds := Values(size.value, depth + 1);
      if ds.None? {
        return None;
      }
      ghost var items := ParseMany(slices, data, before, depth + 1, size.value).value.0;
      ContainerDigest(hash, items);
      return Some(ContainerHash(hash, kind == '>', ds.value));
    }

    method CodeBody(depth: nat) returns (r: Option<Digest>)
      requires Valid()
      modifies this
      ensures match ParseCode(slices, data, old(Model()), depth)
              case None => r.None?
              case Some((v, st)) => Valid() && r == Some(DigestOf(hash, v)) && Model() == st
      decreases remaining, 2
    {
      var head := Take(20);
      if head.None? {
        return None;
      }
      ghost var st1 := Model();
      var fields := Values(8, depth + 1);
      if fields.None? {
        return None;
      }
      var line := Take(4);
      if line.None? {
        return None;
      }
      ghost var st3 := Model();
      var tables := Values(2, depth + 1);
      if tables.None? {
        return None;
      }
      ghost var fs := ParseMany(slices, data, st1, depth + 1, 8).value.0;
      ghost var ts := ParseMany(slices, data, st3, depth + 1, 2).value.0;
      CodeDigest(hash, head.value, fs, line.value, ts);
      return Some(CodeHash(hash, head.value, fields.value, line.value, tables.value));
    }
  }

  /** The structural fingerprint of one complete code body of this interpreter. */
  method CodeFingerprint(hash: Hash, interpreter: Interpreter, data: Bytes) returns (r: Option<Digest>)
    ensures match Unfold(interpreter, data)
            case None => r.None?
            case Some(v) => r == Some(DigestOf(hash, v))
  {
    if !Supported(interpreter) || data == [] || |data| > MAX_CACHE_BYTES || data[0] % 128 != 'c' as int {
      return None;
    }
    var reader := new Reader(hash, HasSlices(interpreter), data);
    var d := reader.Value(0);
    if d.None? || reader.offset != |data| {
      return None;
    }
    return d;
  }

  /** Two accepted streams have one fingerprint exactly when they denote the same code
      up to frozenset order: sharing, reference flags and the short or long spelling of
      strings and tuples never matter, and nothing else is lost (barring a collision). */
  lemma FingerprintIdentifiesCode(hash: Hash, interpreter: Interpreter, s: Bytes, t: Bytes)
    requires Unfold(interpreter, s).Some? && Unfold(interpreter, t).Some?
    ensures var a, b := Unfold(interpreter, s).value, Unfold(interpreter, t).value;
            && (Equivalent(a, b) ==> DigestOf(hash, a) == DigestOf(hash, b))
            && (NoCollision(hash, a, b) && DigestOf(hash, a) == DigestOf(hash, b) ==> Equivalent(a, b))
  {
    var a, b := Unfold(interpreter, s).value, Unfold(interpreter, t).value;
    if Equivalent(a, b) {
      EquivalentSameDigest(hash, a, b);
    }
    if NoCollision(hash, a, b) && DigestOf(hash, a) == DigestOf(hash, b) {
      DigestDeterminesValue(hash, a, b);
    }
  }
}
