/** The explicit-stack walk that lets only JSON trees through
    (packages/cli/src/assignedCapture.ts:109-149).

    A graph maps object identities to objects. A path is the places of the fields that lead from the root to a
    value; its length is the value's depth. */
module TreeCheck {

  /** `Leaf` is null, a string, a boolean or a finite number; `Other` is anything else that is not an object. */
  datatype Value = Leaf | Other | Ref(id: int)

  /** `keyOk`: the key is a string and, in an array, a canonical index below its length. */
  datatype Field = Field(keyOk: bool, accessor: bool, enumerable: bool, value: Value)

  /** The fields are the own keys, in order, without an array's `length`. */
  datatype Object = Object(proxy: bool, plainPrototype: bool, isArray: bool, length: nat, fields: seq<Field>)

  datatype Limits = Limits(nodes: nat, depth: nat, arrayLength: nat)

  type Graph = map<int, Object>

  type Path = seq<nat>

  datatype Visit = Visit(path: Path, value: Value)

  // ---------------------------------------------------------------- what is allowed

  predicate FieldOk(f: Field) {
    f.keyOk && !f.accessor && f.enumerable
  }

  predicate ObjectOk(o: Object, limits: Limits) {
    && !o.proxy && o.plainPrototype
    && (o.isArray ==> o.length <= limits.arrayLength && |o.fields| == o.length)
    && forall i :: 0 <= i < |o.fields| ==> FieldOk(o.fields[i])
  }

  predicate ValueOk(g: Graph, v: Value, limits: Limits) {
    match v
    case Leaf => true
    case Other => false
    case Ref(id) => id in g && ObjectOk(g[id], limits)
  }

  /** The value at the end of a path, when there is one. */
  predicate Leads(g: Graph, from: Value, path: Path, to: Value)
    decreases |path|
  {
    if path == [] then from == to else
      && from.Ref? && from.id in g && path[0] < |g[from.id].fields|
      && Leads(g, g[from.id].fields[path[0]].value, path[1..], to)
  }

  // ---------------------------------------------------------------- the unfolding

  /** All values below a value in the order the walk meets them, last field first; an object that is not
      allowed, or lies too deep, is met but not entered. */
  function Unfold(g: Graph, v: Value, path: Path, limits: Limits): (visits: seq<Visit>)
    requires |path| <= limits.depth + 1
    ensures visits != [] && visits[0] == Visit(path, v)
    decreases 2 * (limits.depth + 1 - |path|) + 1, 0
  {
    [Visit(path, v)] +
    if |path| <= limits.depth && v.Ref? && ValueOk(g, v, limits) then
      UnfoldFields(g, g[v.id].fields, path, |g[v.id].fields|, limits)
    else []
  }

  function UnfoldFields(g: Graph, fields: seq<Field>, path: Path, n: nat, limits: Limits): (visits: seq<Visit>)
    requires |path| <= limits.depth && n <= |fields|
    ensures |visits| >= n
    decreases 2 * (limits.depth + 1 - |path|), n
  {
    if n == 0 then [] else
      Unfold(g, fields[n - 1].value, path + [n - 1], limits) + UnfoldFields(g, fields, path, n - 1, limits)
  }

  predicate VisitOk(g: Graph, visit: Visit, limits: Limits) {
    |visit.path| <= limits.depth && ValueOk(g, visit.value, limits)
  }

  ghost predicate NoneTwice(visits: seq<Visit>) {
    forall i, j :: 0 <= i < j < |visits| && visits[i].value.Ref? ==> visits[i].value != visits[j].value
  }

  /** What the walk decides: everything met is allowed, no object is met twice, and not too much is met. */
  ghost predicate WalkOk(g: Graph, root: Value, limits: Limits) {
    var visits := Unfold(g, root, [], limits);
    && (forall i :: 0 <= i < |visits| ==> VisitOk(g, visits[i], limits))
    && NoneTwice(visits)
    && |visits| <= limits.nodes
  }

  // ---------------------------------------------------------------- the walk

  /** What is still to come; `exit` marks the end of an object's fields. The top of the stack is at the end. */
  datatype Item = Item(path: Path, value: Value, exit: bool)

  ghost predicate StackOk(stack: seq<Item>, limits: Limits) {
    forall i :: 0 <= i < |stack| ==> |stack[i].path| <= limits.depth + 1 && (stack[i].exit ==> stack[i].value.Ref?)
  }

  ghost function Ahead(g: Graph, stack: seq<Item>, limits: Limits): seq<Visit>
    requires StackOk(stack, limits)
    decreases |stack|
  {
    if stack == [] then [] else
      var top, rest := stack[|stack| - 1], stack[..|stack| - 1];
      (if top.exit then [] else Unfold(g, top.value, top.path, limits)) + Ahead(g, rest, limits)
  }

  ghost function Exits(stack: seq<Item>): nat {
    if stack == [] then 0 else Exits(stack[..|stack| - 1]) + if stack[|stack| - 1].exit then 1 else 0
  }

  ghost function Met(visits: seq<Visit>): set<int> {
    set i | 0 <= i < |visits| && visits[i].value.Ref? :: visits[i].value.id
  }

  lemma Pushed(g: Graph, stack: seq<Item>, item: Item, limits: Limits)
    requires StackOk(stack, limits) && |item.path| <= limits.depth + 1 && (item.exit ==> item.value.Ref?)
    ensures StackOk(stack + [item], limits)
    ensures Ahead(g, stack + [item], limits)
         == (if item.exit then [] else Unfold(g, item.value, item.path, limits)) + Ahead(g, stack, limits)
    ensures Exits(stack + [item]) == Exits(stack) + if item.exit then 1 else 0
  {
    hide Unfold;
    assert (stack + [item])[..|stack|] == stack;
  }

  /** The stack has grown by values only. */
  ghost predicate Tops(before: seq<Item>, stack: seq<Item>) {
    before <= stack && forall i :: |before| <= i < |stack| ==> !stack[i].exit
  }

  lemma NoFields(g: Graph, fields: seq<Field>, path: Path, rest: seq<Visit>, limits: Limits)
    requires |path| <= limits.depth
    ensures UnfoldFields(g, fields, path, 0, limits) + rest == rest
  {
  }

  lemma OneMoreField(g: Graph, fields: seq<Field>, path: Path, n: nat, rest: seq<Visit>, limits: Limits)
    requires |path| <= limits.depth && n < |fields|
    ensures Unfold(g, fields[n].value, path + [n], limits) + (UnfoldFields(g, fields, path, n, limits) + rest)
         == UnfoldFields(g, fields, path, n + 1, limits) + rest
  {
    hide Unfold;
  }

  /** Fields pushed in order come back last first. */
  lemma PushAhead(g: Graph, stack: seq<Item>, fields: seq<Field>, path: Path, n: nat, rest: seq<Visit>, limits: Limits)
    requires |path| <= limits.depth && n < |fields| && StackOk(stack, limits)
    requires Ahead(g, stack, limits) == UnfoldFields(g, fields, path, n, limits) + rest
    ensures
      var item := Item(path + [n], fields[n].value, false);
      && StackOk(stack + [item], limits)
      && Ahead(g, stack + [item], limits) == UnfoldFields(g, fields, path, n + 1, limits) + rest
      && Exits(stack + [item]) == Exits(stack)
  {
    hide Unfold, UnfoldFields, Ahead, StackOk;
    Pushed(g, stack, Item(path + [n], fields[n].value, false), limits);
    OneMoreField(g, fields, path, n, rest, limits);
  }

  /** Pushes the fields of an object that was just entered; false when one of them is not allowed. */
  method PushFields(g: Graph, before: seq<Item>, fields: seq<Field>, path: Path, limits: Limits)
    returns (ok: bool, stack: seq<Item>)
    requires |path| <= limits.depth && StackOk(before, limits)
    ensures ok <==> forall i :: 0 <= i < |fields| ==> FieldOk(fields[i])
    ensures ok ==>
      && StackOk(stack, limits) && Exits(stack) == Exits(before)
      && Ahead(g, stack, limits) == UnfoldFields(g, fields, path, |fields|, limits) + Ahead(g, before, limits)
      && Tops(before, stack)
  {
    hide Unfold, Ahead, StackOk, Exits;
    stack := before;
    NoFields(g, fields, path, Ahead(g, before, limits), limits);
    hide UnfoldFields;
    var n := 0;
    while n < |fields|
      invariant n <= |fields| && StackOk(stack, limits) && Exits(stack) == Exits(before)
      invariant forall i :: 0 <= i < n ==> FieldOk(fields[i])
      invariant Ahead(g, stack, limits) == UnfoldFields(g, fields, path, n, limits) + Ahead(g, before, limits)
      invariant Tops(before, stack)
    {
      if !FieldOk(fields[n]) {
        return false, stack;
      }
      PushAhead(g, stack, fields, path, n, Ahead(g, before, limits), limits);
      stack := stack + [Item(path + [n], fields[n].value, false)];
      n := n + 1;
    }
    return true, stack;
  }

  /** What entering a value adds right after it. */
  ghost function Below(g: Graph, v: Value, path: Path, limits: Limits): seq<Visit>
    requires |path| <= limits.depth + 1
  {
    Unfold(g, v, path, limits)[1..]
  }

  lemma NextIsTop(g: Graph, whole: seq<Visit>, done: seq<Visit>, stack: seq<Item>, limits: Limits)
    requires StackOk(stack, limits) && stack != [] && !stack[|stack| - 1].exit
    requires whole == done + Ahead(g, stack, limits)
    ensures
      var top, rest := stack[|stack| - 1], stack[..|stack| - 1];
      && |done| < |whole| && whole[|done|] == Visit(top.path, top.value)
      && whole == (done + [whole[|done|]]) + (Below(g, top.value, top.path, limits) + Ahead(g, rest, limits))
      && |Ahead(g, stack, limits)| == 1 + |Below(g, top.value, top.path, limits)| + |Ahead(g, rest, limits)|
      && Exits(stack) == Exits(rest)
  {
    var top, rest := stack[|stack| - 1], stack[..|stack| - 1];
    var first := Unfold(g, top.value, top.path, limits);
    assert first == [first[0]] + first[1..];
  }

  lemma BelowIs(g: Graph, v: Value, path: Path, limits: Limits)
    requires |path| <= limits.depth + 1
    ensures |path| <= limits.depth && v.Ref? && ValueOk(g, v, limits) ==>
      && Below(g, v, path, limits) == UnfoldFields(g, g[v.id].fields, path, |g[v.id].fields|, limits)
      && |Below(g, v, path, limits)| >= |g[v.id].fields|
    ensures !v.Ref? ==> Below(g, v, path, limits) == []
  {
  }

  lemma MetNext(visits: seq<Visit>, next: Visit)
    ensures Met(visits + [next]) == Met(visits) + if next.value.Ref? then {next.value.id} else {}
  {
    var more := visits + [next];
    assert forall i :: 0 <= i < |visits| ==> more[i] == visits[i];
    assert more[|visits|] == next;
    forall id | id in Met(visits) ensures id in Met(more) {
      var i :| 0 <= i < |visits| && visits[i].value == Ref(id);
      assert more[i].value == Ref(id);
    }
  }

  /** What has been met stays allowed and met once only while nothing refused comes up. */
  ghost predicate DoneOk(g: Graph, done: seq<Visit>, limits: Limits) {
    && (forall i :: 0 <= i < |done| ==> VisitOk(g, done[i], limits))
    && NoneTwice(done)
    && |done| <= limits.nodes
  }

  lemma DoneNext(g: Graph, done: seq<Visit>, next: Visit, limits: Limits)
    requires DoneOk(g, done, limits)
    ensures DoneOk(g, done + [next], limits) <==>
      && |done| < limits.nodes && VisitOk(g, next, limits)
      && (next.value.Ref? ==> next.value.id !in Met(done))
  {
    var more := done + [next];
    assert forall i :: 0 <= i < |done| ==> more[i] == done[i];
    assert more[|done|] == next;
    if next.value.Ref? && next.value.id in Met(done) {
      var i :| 0 <= i < |done| && done[i].value == next.value;
      assert more[i].value == more[|done|].value;
    }
  }

  lemma FrontRefuses(g: Graph, whole: seq<Visit>, front: seq<Visit>, limits: Limits)
    requires front <= whole && DoneOk(g, whole, limits)
    ensures DoneOk(g, front, limits)
  {
    assert forall i :: 0 <= i < |front| ==> front[i] == whole[i];
  }

  /** A refused value, a repeated one, too many, or fields that could never all be met: none can be part of an
      accepted walk. */
  lemma Refuses(g: Graph, whole: seq<Visit>, done: seq<Visit>, next: Visit, below: seq<Visit>, rest: seq<Visit>,
                limits: Limits)
    requires whole == (done + [next]) + (below + rest) && DoneOk(g, done, limits)
    requires
      || !VisitOk(g, next, limits) || |done| >= limits.nodes
      || (next.value.Ref? && next.value.id in Met(done))
      || |done| + 1 + |below| > limits.nodes
    ensures !DoneOk(g, whole, limits)
  {
    DoneNext(g, done, next, limits);
    if DoneOk(g, whole, limits) {
      FrontRefuses(g, whole, done + [next], limits);
    }
  }

  lemma PopExit(g: Graph, stack: seq<Item>, limits: Limits)
    requires StackOk(stack, limits) && stack != [] && stack[|stack| - 1].exit
    ensures StackOk(stack[..|stack| - 1], limits)
    ensures Ahead(g, stack[..|stack| - 1], limits) == Ahead(g, stack, limits)
    ensures Exits(stack[..|stack| - 1]) == Exits(stack) - 1
  {
  }

  lemma WalkStarts(g: Graph, root: Value, limits: Limits)
    ensures
      var stack := [Item([], root, false)];
      StackOk(stack, limits) && Ahead(g, stack, limits) == Unfold(g, root, [], limits)
    ensures Going(g, Unfold(g, root, [], limits), [], [Item([], root, false)], {}, limits)
  {
    hide Unfold;
    var stack := [Item([], root, false)];
    assert Ahead(g, stack[..0], limits) == [];
  }

  /** Everything about an object but its fields. */
  predicate HeadOk(o: Object, limits: Limits) {
    !o.proxy && o.plainPrototype && (o.isArray ==> o.length <= limits.arrayLength && |o.fields| == o.length)
  }

  lemma HeadAndFields(g: Graph, v: Value, limits: Limits)
    requires v.Ref? && v.id in g
    ensures ValueOk(g, v, limits) <==>
      HeadOk(g[v.id], limits) && forall i :: 0 <= i < |g[v.id].fields| ==> FieldOk(g[v.id].fields[i])
  {
  }

  /** The checks before the fields, in order. `nodes` counts the object itself; the early refusal looks at the
      number of own keys alone, and refuses only what could not be met within the limit anyway. */
  method CheckHead(g: Graph, v: Value, nodes: nat, active: set<int>, finished: set<int>, limits: Limits)
    returns (ok: bool)
    requires v.Ref? && nodes <= limits.nodes
    ensures ok ==> v.id !in active + finished && v.id in g && HeadOk(g[v.id], limits)
    ensures !ok ==>
      || v.id in active + finished || v.id !in g || !HeadOk(g[v.id], limits)
      || nodes + |g[v.id].fields| > limits.nodes
  {
    if v.id !in g || g[v.id].proxy || v.id in active {
      return false;
    }
    if v.id in finished || !g[v.id].plainPrototype {
      return false;
    }
    var o := g[v.id];
    var keys := |o.fields| + if o.isArray then 1 else 0;
    if keys > limits.nodes - nodes + 1 {
      return false;
    }
    return !(o.isArray && (o.length > limits.arrayLength || keys != o.length + 1));
  }

  /** Enters an object not met before, unless its shape refuses. */
  method Enter(g: Graph, rest: seq<Item>, item: Item, nodes: nat, active: set<int>, finished: set<int>, limits: Limits)
    returns (ok: bool, stack: seq<Item>)
    requires StackOk(rest, limits) && item.value.Ref? && |item.path| <= limits.depth && nodes <= limits.nodes
    ensures ok ==>
      && item.value.id !in active + finished && ValueOk(g, item.value, limits) && StackOk(stack, limits)
      && Ahead(g, stack, limits) == Below(g, item.value, item.path, limits) + Ahead(g, rest, limits)
      && Exits(stack) == Exits(rest) + 1
      && Tops(rest + [item.(exit := true)], stack)
    ensures !ok ==>
      || item.value.id in active + finished || !ValueOk(g, item.value, limits)
      || nodes + |Below(g, item.value, item.path, limits)| > limits.nodes
  {
    hide Unfold, UnfoldFields, Ahead, Exits, StackOk, Below, HeadOk, ObjectOk, FieldOk, Tops;
    stack := rest;
    BelowIs(g, item.value, item.path, limits);
    var headOk := CheckHead(g, item.value, nodes, active, finished, limits);
    if item.value.id in g {
      HeadAndFields(g, item.value, limits);
    }
    if !headOk {
      return false, stack;
    }
    Pushed(g, rest, item.(exit := true), limits);
    ok, stack := PushFields(g, rest + [item.(exit := true)], g[item.value.id].fields, item.path, limits);
  }

  // ---------------------------------------------------------------- the loop's invariant

  ghost predicate ExitsMet(stack: seq<Item>, met: set<int>) {
    forall i :: 0 <= i < |stack| && stack[i].exit && stack[i].value.Ref? ==> stack[i].value.id in met
  }

  ghost predicate Going(g: Graph, whole: seq<Visit>, done: seq<Visit>, stack: seq<Item>, met: set<int>,
                        limits: Limits) {
    && StackOk(stack, limits) && whole == done + Ahead(g, stack, limits)
    && DoneOk(g, done, limits) && met == Met(done) && ExitsMet(stack, met)
  }

  ghost function Size(g: Graph, stack: seq<Item>, limits: Limits): nat
    requires StackOk(stack, limits)
  {
    2 * |Ahead(g, stack, limits)| + Exits(stack)
  }

  lemma ExitKeeps(g: Graph, whole: seq<Visit>, done: seq<Visit>, stack: seq<Item>, met: set<int>, limits: Limits)
    requires Going(g, whole, done, stack, met, limits) && stack != [] && stack[|stack| - 1].exit
    ensures Going(g, whole, done, stack[..|stack| - 1], met, limits)
    ensures Size(g, stack[..|stack| - 1], limits) < Size(g, stack, limits)
    ensures stack[|stack| - 1].value.Ref? && stack[|stack| - 1].value.id in met
  {
    hide DoneOk, Met, Ahead, Exits;
    PopExit(g, stack, limits);
  }

  /** A value that is allowed, new and within the limits is done, and what lies below it comes next. */
  lemma ValueKeeps(g: Graph, whole: seq<Visit>, done: seq<Visit>, stack: seq<Item>, met: set<int>, entered: seq<Item>,
                   limits: Limits)
    requires Going(g, whole, done, stack, met, limits) && stack != [] && !stack[|stack| - 1].exit
    requires
      var top, rest := stack[|stack| - 1], stack[..|stack| - 1];
      && |done| < limits.nodes && VisitOk(g, Visit(top.path, top.value), limits)
      && (top.value.Ref? ==> top.value.id !in met)
      && StackOk(entered, limits) && Exits(entered) <= Exits(rest) + 1
      && Ahead(g, entered, limits) == Below(g, top.value, top.path, limits) + Ahead(g, rest, limits)
      && (entered == rest || (top.value.Ref? && Tops(rest + [top.(exit := true)], entered)))
    ensures
      var top := stack[|stack| - 1];
      Going(g, whole, done + [Visit(top.path, top.value)], entered,
            met + (if top.value.Ref? then {top.value.id} else {}), limits)
    ensures Size(g, entered, limits) < Size(g, stack, limits)
  {
    hide DoneOk, Met, Ahead, Exits, VisitOk, Below, Unfold;
    var top, rest := stack[|stack| - 1], stack[..|stack| - 1];
    var next := Visit(top.path, top.value);
    NextIsTop(g, whole, done, stack, limits);
    DoneNext(g, done, next, limits);
    MetNext(done, next);
    ExitsMetNext(stack, entered, met);
  }

  lemma ExitsMetNext(stack: seq<Item>, entered: seq<Item>, met: set<int>)
    requires ExitsMet(stack, met) && stack != []
    requires
      var top, rest := stack[|stack| - 1], stack[..|stack| - 1];
      entered == rest || (top.value.Ref? && Tops(rest + [top.(exit := true)], entered))
    ensures
      var top := stack[|stack| - 1];
      ExitsMet(entered, met + if top.value.Ref? then {top.value.id} else {})
  {
    var top, rest := stack[|stack| - 1], stack[..|stack| - 1];
    if entered != rest {
      var base := rest + [top.(exit := true)];
      forall i | 0 <= i < |entered| && entered[i].exit && entered[i].value.Ref?
        ensures entered[i].value.id in met + {top.value.id}
      {
        assert i < |base| && entered[i] == base[i];
      }
    }
  }

  /** A refused value, a repeated one, too many, or fields that could never all be met: none can be part of an
      accepted walk. */
  lemma RefusalIsRight(g: Graph, whole: seq<Visit>, done: seq<Visit>, stack: seq<Item>, met: set<int>, limits: Limits)
    requires Going(g, whole, done, stack, met, limits) && stack != [] && !stack[|stack| - 1].exit
    requires
      var top := stack[|stack| - 1];
      || |done| >= limits.nodes || !VisitOk(g, Visit(top.path, top.value), limits)
      || (top.value.Ref? && top.value.id in met)
      || |done| + 1 + |Below(g, top.value, top.path, limits)| > limits.nodes
    ensures !DoneOk(g, whole, limits)
  {
    hide DoneOk, Met, Ahead, Exits, VisitOk, Below, Unfold;
    var top := stack[|stack| - 1];
    NextIsTop(g, whole, done, stack, limits);
    Refuses(g, whole, done, Visit(top.path, top.value), Below(g, top.value, top.path, limits),
            Ahead(g, stack[..|stack| - 1], limits), limits);
  }

  /** Meets the value on top of the stack. `nodes` counts it already. */
  method Meet(g: Graph, ghost whole: seq<Visit>, ghost done: seq<Visit>, stack: seq<Item>, nodes: nat,
              active: set<int>, finished: set<int>, limits: Limits)
    returns (ok: bool, entered: seq<Item>)
    requires Going(g, whole, done, stack, active + finished, limits) && stack != [] && !stack[|stack| - 1].exit
    requires nodes == |done| + 1 && StackOk(stack, limits)
    ensures !ok ==> !DoneOk(g, whole, limits)
    ensures ok ==>
      var top := stack[|stack| - 1];
      && Going(g, whole, done + [Visit(top.path, top.value)], entered,
               active + finished + (if top.value.Ref? then {top.value.id} else {}), limits)
      && StackOk(entered, limits) && Size(g, entered, limits) < Size(g, stack, limits)
  {
    GoingMeans(g, whole, done, stack, active + finished, limits);
    hide Unfold, Going, Size, DoneOk, StackOk, Below, Tops;
    var item, rest := stack[|stack| - 1], stack[..|stack| - 1];
    ok, entered := true, rest;
    if nodes > limits.nodes || |item.path| > limits.depth || item.value.Other? {
      ok := false;
    } else if item.value.Ref? {
      ok, entered := Enter(g, rest, item, nodes, active, finished, limits);
    }
    if ok {
      ValueKeeps(g, whole, done, stack, active + finished, entered, limits);
    } else {
      RefusalIsRight(g, whole, done, stack, active + finished, limits);
    }
  }

  /** The walk decides exactly `WalkOk`, and ends. */
  method Walk(g: Graph, root: Value, limits: Limits) returns (accepted: bool)
    ensures accepted <==> WalkOk(g, root, limits)
  {
    var stack := [Item([], root, false)];
    var nodes := 0;
    var active: set<int>, finished: set<int> := {}, {};
    ghost var whole, done: seq<Visit> := Unfold(g, root, [], limits), [];
    WalkStarts(g, root, limits);
    WalkOkIs(g, root, limits);
    hide Unfold, Going, Size, DoneOk, WalkOk, StackOk;
    while stack != []
      invariant nodes == |done| && StackOk(stack, limits)
      invariant Going(g, whole, done, stack, active + finished, limits)
      decreases Size(g, stack, limits)
    {
      var item := stack[|stack| - 1];
      if item.exit {
        ExitKeeps(g, whole, done, stack, active + finished, limits);
        assert (active - {item.value.id}) + (finished + {item.value.id}) == active + finished;
        active, finished := active - {item.value.id}, finished + {item.value.id};
        stack := stack[..|stack| - 1];
      } else {
        nodes := nodes + 1;
        var ok, entered := Meet(g, whole, done, stack, nodes, active, finished, limits);
        if !ok {
          return false;
        }
        if item.value.Ref? {
          assert active + finished + {item.value.id} == (active + {item.value.id}) + finished;
          active := active + {item.value.id};
        }
        stack, done := entered, done + [Visit(item.path, item.value)];
      }
      GoingMeans(g, whole, done, stack, active + finished, limits);
    }
    GoingMeans(g, whole, done, stack, active + finished, limits);
    return true;
  }

  lemma WalkOkIs(g: Graph, root: Value, limits: Limits)
    ensures WalkOk(g, root, limits) <==> DoneOk(g, Unfold(g, root, [], limits), limits)
  {
  }

  lemma GoingMeans(g: Graph, whole: seq<Visit>, done: seq<Visit>, stack: seq<Item>, met: set<int>, limits: Limits)
    requires Going(g, whole, done, stack, met, limits)
    ensures StackOk(stack, limits) && (stack != [] ==> StackOk(stack[..|stack| - 1], limits))
    ensures stack == [] ==> DoneOk(g, whole, limits)
  {
  }
}
