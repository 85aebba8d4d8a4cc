/** Moving a plan's generated paths from the profile roots to the granted ones. */
module BindExecution {
  import opened Octets
  import opened Paths

  datatype Json = Text(text: string) | List(items: seq<Json>) | Object(members: seq<(string, Json)>) | Scalar(value: int)

  /** Where a named root was planned and where it is granted. */
  datatype Move = Move(source: string, target: string)

  predicate At(path: string, root: string) {
    path == root || Under(path, root)
  }

  /** The first root that the text lies in decides; its rest is kept. */
  function MovedText(moves: seq<Move>, text: string): string {
    if moves == [] then text
    else if At(text, moves[0].source) then moves[0].target + text[|moves[0].source|..]
    else MovedText(moves[1..], text)
  }

  function Moved(moves: seq<Move>, v: Json): Json {
    match v
    case Text(text) => Text(MovedText(moves, text))
    case List(items) => List(seq(|items|, i requires 0 <= i < |items| => Moved(moves, items[i])))
    case Object(members) =>
      Object(seq(|members|, i requires 0 <= i < |members| => (members[i].0, Moved(moves, members[i].1))))
    case Scalar(_) => v
  }

  predicate SourcesApart(moves: seq<Move>) {
    forall i, j :: 0 <= i < j < |moves| ==> !Overlap(moves[i].source, moves[j].source)
  }

  predicate TargetsApart(moves: seq<Move>) {
    forall i, j :: 0 <= i < j < |moves| ==> !Overlap(moves[i].target, moves[j].target)
  }

  /** A path lies in at most one of two roots that do not overlap. */
  lemma OneRoot(path: string, a: string, b: string)
    requires At(path, a) && At(path, b)
    ensures Overlap(a, b)
  {
    if |a| == |b| {
      assert a == path[..|a|] == b;
    } else if |a| < |b| {
      assert b == path[..|b|] && a + "/" == path[..|a| + 1];
      assert a + "/" == b[..|a| + 1];
    } else {
      assert a == path[..|a|] && b + "/" == path[..|b| + 1];
      assert b + "/" == a[..|b| + 1];
    }
  }

  lemma Joined(root: string, rest: string)
    requires rest == "" || rest[0] == '/'
    ensures At(root + rest, root)
  {
    if rest != "" {
      assert rest == "/" + rest[1..];
      assert root + rest == root + "/" + rest[1..];
    } else {
      assert root + rest == root;
    }
  }

  /** Every path in a planned root keeps its rest, wherever that root stands in the list, and
      everything else stays as it is. */
  lemma {:induction false} SuffixKept(moves: seq<Move>, k: nat, rest: string)
    requires SourcesApart(moves) && k < |moves| && (rest == "" || rest[0] == '/')
    ensures MovedText(moves, moves[k].source + rest) == moves[k].target + rest
    decreases |moves|
  {
    var text := moves[k].source + rest;
    Joined(moves[k].source, rest);
    if k == 0 {
      assert text[|moves[0].source|..] == rest;
    } else {
      if At(text, moves[0].source) {
        OneRoot(text, moves[0].source, moves[k].source);
      }
      SuffixKept(moves[1..], k - 1, rest);
    }
  }

  lemma {:induction false} OutsideStays(moves: seq<Move>, text: string)
    requires forall i :: 0 <= i < |moves| ==> !At(text, moves[i].source)
    ensures MovedText(moves, text) == text
    decreases |moves|
  {
    if moves != [] {
      assert !At(text, moves[0].source);
      forall i | 0 <= i < |moves[1..]| ensures !At(text, moves[1..][i].source) {
        assert moves[1..][i] == moves[i + 1];
      }
      OutsideStays(moves[1..], text);
    }
  }

  /** What comes after the root in a path that lies in it. */
  function Rest(text: string, root: string): (rest: string)
    requires At(text, root)
    ensures text == root + rest && (rest == "" || rest[0] == '/')
  {
    text[|root|..]
  }

  /** The order in which the roots are listed does not matter. */
  lemma TextOrderIrrelevant(a: seq<Move>, b: seq<Move>, text: string)
    requires SourcesApart(a) && SourcesApart(b) && forall m :: m in a <==> m in b
    ensures MovedText(a, text) == MovedText(b, text)
  {
    if k :| 0 <= k < |a| && At(text, a[k].source) {
      assert a[k] in b;
      var j :| 0 <= j < |b| && b[j] == a[k];
      SuffixKept(a, k, Rest(text, a[k].source));
      SuffixKept(b, j, Rest(text, a[k].source));
    } else {
      OutsideStays(a, text);
      forall i | 0 <= i < |b| ensures !At(text, b[i].source) {
        assert b[i] in a;
      }
      OutsideStays(b, text);
    }
  }

  lemma {:induction false} OrderIrrelevant(a: seq<Move>, b: seq<Move>, v: Json)
    requires SourcesApart(a) && SourcesApart(b) && forall m :: m in a <==> m in b
    ensures Moved(a, v) == Moved(b, v)
    decreases v
  {
    match v
    case Text(text) => TextOrderIrrelevant(a, b, text);
    case List(items) =>
      forall i | 0 <= i < |items| ensures Moved(a, items[i]) == Moved(b, items[i]) {
        OrderIrrelevant(a, b, items[i]);
      }
    case Object(members) =>
      forall i | 0 <= i < |members| ensures Moved(a, members[i].1) == Moved(b, members[i].1) {
        OrderIrrelevant(a, b, members[i].1);
      }
    case Scalar(_) =>
  }

  // ---- nothing is left behind -----------------------------------------------------------------

  /** Some string of the tree lies in `root`. */
  predicate Mentions(v: Json, root: string) {
    match v
    case Text(text) => At(text, root)
    case List(items) => exists i :: 0 <= i < |items| && Mentions(items[i], root)
    case Object(members) => exists i :: 0 <= i < |members| && Mentions(members[i].1, root)
    case Scalar(_) => false
  }

  /** Planned and granted roots are different places. */
  predicate CrossApart(moves: seq<Move>) {
    forall i, j :: 0 <= i < |moves| && 0 <= j < |moves| ==> !Overlap(moves[i].target, moves[j].source)
  }

  lemma TextLeavesRoot(moves: seq<Move>, k: nat, text: string)
    requires SourcesApart(moves) && CrossApart(moves) && k < |moves|
    ensures !At(MovedText(moves, text), moves[k].source)
  {
    hide MovedText;
    hide At;
    hide Overlap;
    if j :| 0 <= j < |moves| && At(text, moves[j].source) {
      var rest := Rest(text, moves[j].source);
      SuffixKept(moves, j, rest);
      var moved := moves[j].target + rest;
      Joined(moves[j].target, rest);
      if At(moved, moves[k].source) {
        OneRoot(moved, moves[j].target, moves[k].source);
      }
    } else {
      OutsideStays(moves, text);
    }
  }

  /** After the move no string of the tree refers to a planned root. */
  lemma {:induction false} TreeLeavesRoot(moves: seq<Move>, k: nat, v: Json)
    requires SourcesApart(moves) && CrossApart(moves) && k < |moves|
    ensures !Mentions(Moved(moves, v), moves[k].source)
    decreases v
  {
    match v
    case Text(text) => TextLeavesRoot(moves, k, text);
    case List(items) =>
      forall i | 0 <= i < |items| ensures !Mentions(Moved(moves, items[i]), moves[k].source) {
        TreeLeavesRoot(moves, k, items[i]);
      }
    case Object(members) =>
      forall i | 0 <= i < |members| ensures !Mentions(Moved(moves, members[i].1), moves[k].source) {
        TreeLeavesRoot(moves, k, members[i].1);
      }
    case Scalar(_) =>
  }

  // ---- and back again ---------------------------------------------------------------------------

  function Reversed(moves: seq<Move>): (r: seq<Move>)
    ensures |r| == |moves| && forall i :: 0 <= i < |r| ==> r[i] == Move(moves[i].target, moves[i].source)
  {
    seq(|moves|, i requires 0 <= i < |moves| => Move(moves[i].target, moves[i].source))
  }

  /** The text is in a planned root, or at least in no granted one. */
  predicate Recoverable(moves: seq<Move>, text: string) {
    || (exists k :: 0 <= k < |moves| && At(text, moves[k].source))
    || (forall k :: 0 <= k < |moves| ==> !At(text, moves[k].target))
  }

  predicate AllRecoverable(moves: seq<Move>, v: Json) {
    match v
    case Text(text) => Recoverable(moves, text)
    case List(items) => forall i :: 0 <= i < |items| ==> AllRecoverable(moves, items[i])
    case Object(members) => forall i :: 0 <= i < |members| ==> AllRecoverable(moves, members[i].1)
    case Scalar(_) => true
  }

  lemma TextRoundTrip(moves: seq<Move>, text: string)
    requires SourcesApart(moves) && TargetsApart(moves) && Recoverable(moves, text)
    ensures MovedText(Reversed(moves), MovedText(moves, text)) == text
  {
    if k :| 0 <= k < |moves| && At(text, moves[k].source) {
      SuffixKept(moves, k, Rest(text, moves[k].source));
      SuffixKept(Reversed(moves), k, Rest(text, moves[k].source));
    } else {
      OutsideStays(moves, text);
      OutsideStays(Reversed(moves), text);
    }
  }

  /** Binding loses nothing: moving the roots back restores the plan. */
  lemma {:induction false} RoundTrip(moves: seq<Move>, v: Json)
    requires SourcesApart(moves) && TargetsApart(moves) && AllRecoverable(moves, v)
    ensures Moved(Reversed(moves), Moved(moves, v)) == v
    decreases v
  {
    match v
    case Text(text) => TextRoundTrip(moves, text);
    case List(items) =>
      forall i | 0 <= i < |items| ensures Moved(Reversed(moves), Moved(moves, items[i])) == items[i] {
        RoundTrip(moves, items[i]);
      }
    case Object(members) =>
      forall i | 0 <= i < |members| ensures Moved(Reversed(moves), Moved(moves, members[i].1)) == members[i].1 {
        RoundTrip(moves, members[i].1);
      }
    case Scalar(_) =>
  }

  // ---- the plan -----------------------------------------------------------------------------------

  /** `prepared` is generated only by preparation jobs; `inputs` stands for all other fields. */
  datatype Plan = Plan(
    roots: seq<string>, stages: Option<Json>, writable: Option<Json>, environment: Option<Json>,
    prepared: Option<Json>, preparation: bool, inputs: Json)

  function Sources(moves: seq<Move>): seq<string> {
    seq(|moves|, i requires 0 <= i < |moves| => moves[i].source)
  }

  function Targets(moves: seq<Move>): seq<string> {
    seq(|moves|, i requires 0 <= i < |moves| => moves[i].target)
  }

  function MovedField(moves: seq<Move>, field: Option<Json>): Option<Json> {
    if field.Some? then Some(Moved(moves, field.value)) else None
  }

  /** `bind_execution`; a plan with foreign roots is refused. */
  function Bind(plan: Plan, moves: seq<Move>): Option<Plan> {
    if plan.roots == Targets(moves) then Some(plan)
    else if plan.roots != Sources(moves) then None
    else Some(plan.(
      roots := Targets(moves), stages := MovedField(moves, plan.stages), writable := MovedField(moves, plan.writable),
      environment := MovedField(moves, plan.environment),
      prepared := if plan.preparation then MovedField(moves, plan.prepared) else plan.prepared))
  }

  /** Binding twice is binding once, and inputs are never touched. */
  lemma BindIdempotent(plan: Plan, moves: seq<Move>)
    requires Bind(plan, moves).Some?
    ensures Bind(Bind(plan, moves).value, moves) == Bind(plan, moves)
    ensures Bind(plan, moves).value.roots == Targets(moves) && Bind(plan, moves).value.inputs == plan.inputs
    ensures !plan.preparation ==> Bind(plan, moves).value.prepared == plan.prepared
  {
  }

  /** A bound plan refers to no planned root in anything that is generated. */
  lemma BoundPlanLeavesRoots(plan: Plan, moves: seq<Move>, k: nat)
    requires SourcesApart(moves) && CrossApart(moves) && k < |moves| && plan.roots == Sources(moves)
    ensures Bind(plan, moves).Some?
    ensures var bound := Bind(plan, moves).value;
            forall field :: field in {bound.stages, bound.writable, bound.environment} && field.Some? ==>
              !Mentions(field.value, moves[k].source)
    ensures var bound := Bind(plan, moves).value;
            plan.preparation && bound.prepared.Some? ==> !Mentions(bound.prepared.value, moves[k].source)
  {
    assert Sources(moves)[k] == moves[k].source && Targets(moves)[k] == moves[k].target;
    assert !Overlap(moves[k].target, moves[k].source);
    forall field: Option<Json> | field.Some? ensures !Mentions(MovedField(moves, field).value, moves[k].source) {
      TreeLeavesRoot(moves, k, field.value);
    }
  }

  lemma FieldOrder(a: seq<Move>, b: seq<Move>, field: Option<Json>)
    requires SourcesApart(a) && SourcesApart(b) && forall m :: m in a <==> m in b
    ensures MovedField(a, field) == MovedField(b, field)
  {
    if field.Some? {
      OrderIrrelevant(a, b, field.value);
    }
  }

  /** Two bindings that list the same moves in different orders agree on everything generated. */
  lemma BindOrderIrrelevant(plan: Plan, a: seq<Move>, b: seq<Move>)
    requires SourcesApart(a) && SourcesApart(b) && forall m :: m in a <==> m in b
    requires plan.roots == Sources(a) && Sources(a) != Targets(a) && Sources(b) != Targets(b)
    ensures Bind(plan, a).Some? && Bind(plan.(roots := Sources(b)), b).Some?
    ensures Bind(plan, a).value.(roots := []) == Bind(plan.(roots := Sources(b)), b).value.(roots := [])
  {
    FieldOrder(a, b, plan.stages);
    FieldOrder(a, b, plan.writable);
    FieldOrder(a, b, plan.environment);
    FieldOrder(a, b, plan.prepared);
  }

  lemma FieldRoundTrip(moves: seq<Move>, field: Option<Json>)
    requires SourcesApart(moves) && TargetsApart(moves) && (field.Some? ==> AllRecoverable(moves, field.value))
    ensures MovedField(Reversed(moves), MovedField(moves, field)) == field
  {
    if field.Some? {
      RoundTrip(moves, field.value);
    }
  }

  predicate PlanRecoverable(moves: seq<Move>, plan: Plan) {
    && (plan.stages.Some? ==> AllRecoverable(moves, plan.stages.value))
    && (plan.writable.Some? ==> AllRecoverable(moves, plan.writable.value))
    && (plan.environment.Some? ==> AllRecoverable(moves, plan.environment.value))
    && (plan.prepared.Some? ==> AllRecoverable(moves, plan.prepared.value))
  }

  /** Binding a plan and then binding it with source and target exchanged gives the plan back. */
  lemma BindRoundTrip(plan: Plan, moves: seq<Move>)
    requires SourcesApart(moves) && TargetsApart(moves) && PlanRecoverable(moves, plan)
    requires plan.roots == Sources(moves)
    ensures Bind(plan, moves).Some? && Bind(Bind(plan, moves).value, Reversed(moves)) == Some(plan)
  {
    assert Sources(Reversed(moves)) == Targets(moves) && Targets(Reversed(moves)) == Sources(moves);
    FieldRoundTrip(moves, plan.stages);
    FieldRoundTrip(moves, plan.writable);
    FieldRoundTrip(moves, plan.environment);
    FieldRoundTrip(moves, plan.prepared);
  }
}
