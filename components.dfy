/** Components and the event loop as the property tests exercise them: a
    setter queues an action that takes effect only at the next loop
    iteration; a mutation is allowed only while the loop's processing flag
    is set; a non-settable property has no setter; a failed validation
    leaves the old value; list properties support in-place `insert`,
    `replace` and `remove`. */
module Components {
  import opened Wrappers
  import opened Values
  import opened Properties

  /** A property declaration: its kind, its default and whether a public
      setter action is generated for it. */
  datatype PropSpec = PropSpec(kind: Kind, default: Value, settable: bool)

  /** Every default passes its own validator (otherwise the class cannot be
      declared). */
  predicate WellFormed(specs: map<string, PropSpec>)
  {
    forall name :: name in specs ==> Validate(specs[name].kind, specs[name].default).Success?
  }

  /** The initial values: each default, validated. */
  function Defaults(specs: map<string, PropSpec>): (vals: map<string, Value>)
    requires WellFormed(specs)
    ensures vals.Keys == specs.Keys
    ensures forall name :: name in vals ==> Conforms(specs[name].kind, vals[name])
  {
    map name | name in specs :: Validate(specs[name].kind, specs[name].default).value
  }

  /** How a mutation changes a property: replace the whole value, or one of
      the in-place list edits at an index. */
  datatype Mutation = Set | Insert(index: int) | Replace(index: int) | Remove(index: int)

  /** A slice bound normalised the way Python normalises `a[i:...]`:
      negative counts from the end, then clamped into `0..n`. */
  function SliceBound(i: int, n: nat): (k: nat)
    ensures k <= n
    ensures 0 <= i <= n ==> k == i
    ensures i > n ==> k == n
    ensures i < 0 ==> k == if i + n < 0 then 0 else i + n
  {
    if i < 0 then (if i + n < 0 then 0 else i + n) else if i > n then n else i
  }

  /** `a[lo:hi] = objs` with Python's normalisation of both bounds; a stop
      before the start denotes the empty slice at the start. */
  function AssignSlice(a: seq<Value>, lo: int, hi: int, objs: seq<Value>): (r: seq<Value>)
    ensures var l := SliceBound(lo, |a|);
            var h := if SliceBound(hi, |a|) < l then l else SliceBound(hi, |a|);
            |r| == l + |objs| + |a| - h &&
            r[..l] == a[..l] && r[l..l + |objs|] == objs && r[l + |objs|..] == a[h..]
  {
    var l := SliceBound(lo, |a|);
    var h := if SliceBound(hi, |a|) < l then l else SliceBound(hi, |a|);
    a[..l] + objs + a[h..]
  }

  /** The items that `a[i:j] = v` splices in: a tuple's or list's items, a
      string's characters; anything else is not iterable. */
  function Elements(v: Value): (r: Option<seq<Value>>)
    ensures IsSequence(v) ==> r == Some(v.items)
    ensures v.Str? ==>
      r.Some? && |r.value| == |v.s| && (forall i :: 0 <= i < |v.s| ==> r.value[i] == Str([v.s[i]]))
    ensures r.Some? <==> IsSequence(v) || v.Str?
  {
    match v
    case Tuple(items) => Some(items)
    case List(items) => Some(items)
    case Str(s) => Some(seq(|s|, i requires 0 <= i < |s| => Str([s[i]])))
    case _ => None
  }

  /** The new value a mutation gives a property of kind `k` that holds
      `cur`: `set` validates the operand; `insert` splices the items in at
      the index; `replace` overwrites as many items as it is given;
      `remove` deletes the number of items the operand gives. The in-place
      edits need a list (a tuple or any other value cannot be edited in
      place) and do not validate the items. */
  function Mutated(k: Kind, cur: Value, v: Value, m: Mutation): (r: Result<Value, Error>)
    ensures m.Set? ==> r == Validate(k, v)
    ensures !m.Set? ==> (r.Success? ==> cur.List? && r.value.List?)
    ensures !m.Set? && !cur.List? ==> r == Failure(TypeError)
    ensures m.Insert? && cur.List? && Elements(v).Some? ==>
      r == Success(List(AssignSlice(cur.items, m.index, m.index, Elements(v).value)))
    ensures m.Replace? && cur.List? && Elements(v).Some? ==>
      r == Success(List(AssignSlice(cur.items, m.index, m.index + |Elements(v).value|, Elements(v).value)))
    ensures m.Remove? && cur.List? && v.Int? ==>
      r == Success(List(AssignSlice(cur.items, m.index, m.index + v.i, [])))
    ensures r.Failure? ==> r.error == TypeError || r.error == ValueError
  {
    match m
    case Set => Validate(k, v)
    case Insert(i) =>
      if !cur.List? || Elements(v).None? then Failure(TypeError)
      else Success(List(AssignSlice(cur.items, i, i, Elements(v).value)))
    case Replace(i) =>
      if !cur.List? || Elements(v).None? then Failure(TypeError)
      else
        var objs := Elements(v).value;
        Success(List(AssignSlice(cur.items, i, i + |objs|, objs)))
    case Remove(i) =>
      if !cur.List? || !v.Int? then Failure(TypeError)
      else Success(List(AssignSlice(cur.items, i, i + v.i, [])))
  }

  /** A mutation keeps a property within its kind's normalised values. */
  lemma MutatedConforms(k: Kind, cur: Value, v: Value, m: Mutation)
    requires Conforms(k, cur)
    requires Mutated(k, cur, v, m).Success?
    ensures Conforms(k, Mutated(k, cur, v, m).value)
  {
  }

  /** Removing what was just inserted, at the same in-range index, gives the
      list back. */
  lemma {:induction false} RemoveUndoesInsert(cur: seq<Value>, objs: seq<Value>, i: int)
    requires 0 <= i <= |cur|
    ensures var inserted := Mutated(ListKind, List(cur), List(objs), Insert(i));
            inserted.Success? &&
            Mutated(ListKind, inserted.value, Int(|objs|), Remove(i)) == Success(List(cur))
  {
    var a := AssignSlice(cur, i, i, objs);
    assert a == cur[..i] + objs + cur[i..];
    assert SliceBound(i, |a|) == i && SliceBound(i + |objs|, |a|) == i + |objs|;
    assert a[..i] == cur[..i] && a[i + |objs|..] == cur[i..];
    assert cur[..i] + [] + cur[i..] == cur;
  }

  /** An in-range `replace` keeps the length and overwrites exactly the
      given positions. */
  lemma ReplaceInRange(cur: seq<Value>, objs: seq<Value>, i: nat)
    requires i + |objs| <= |cur|
    ensures var r := Mutated(ListKind, List(cur), List(objs), Replace(i));
            r.Success? && |r.value.items| == |cur| &&
            (forall j :: 0 <= j < |cur| ==>
              r.value.items[j] == if i <= j < i + |objs| then objs[j - i] else cur[j])
  {
    var r := AssignSlice(cur, i, i + |objs|, objs);
    assert r == cur[..i] + objs + cur[i + |objs|..];
  }

  /** An in-range `insert` splices the items in before position `i`. */
  lemma InsertInRange(cur: seq<Value>, objs: seq<Value>, i: int)
    requires 0 <= i <= |cur|
    ensures Mutated(ListKind, List(cur), List(objs), Insert(i)) == Success(List(cur[..i] + objs + cur[i..]))
  {
  }

  /** An in-range `remove` of `n` items drops exactly `cur[i..i + n]`. */
  lemma RemoveInRange(cur: seq<Value>, i: int, n: int)
    requires 0 <= i && 0 <= n && i + n <= |cur|
    ensures Mutated(ListKind, List(cur), Int(n), Remove(i)) == Success(List(cur[..i] + cur[i + n..]))
  {
    assert cur[..i] + [] + cur[i + n..] == cur[..i] + cur[i + n..];
  }

  /** A queued setter action: target component, property name, argument. */
  datatype Action = Action(target: Component, name: string, arg: Value)

  function Targets(acts: seq<Action>): set<Component>
  {
    set a | a in acts :: a.target
  }

  /** The effect of one setter action on the values of component `c`: an
      action aimed elsewhere, at an unknown property or with a value the
      validator rejects leaves them as they are. */
  function ApplyAction(a: Action, c: Component, vals: map<string, Value>): map<string, Value>
  {
    if a.target == c && a.name in c.specs && a.name in vals
       && Mutated(c.specs[a.name].kind, vals[a.name], a.arg, Set).Success?
    then vals[a.name := Mutated(c.specs[a.name].kind, vals[a.name], a.arg, Set).value]
    else vals
  }

  /** The values of `c` after the actions run in order. */
  function Replay(acts: seq<Action>, c: Component, vals: map<string, Value>): map<string, Value>
    decreases |acts|
  {
    if |acts| == 0 then vals
    else ApplyAction(acts[|acts| - 1], c, Replay(acts[..|acts| - 1], c, vals))
  }

  lemma ReplayStep(acts: seq<Action>, i: nat, c: Component, vals: map<string, Value>)
    requires i < |acts|
    ensures Replay(acts[..i + 1], c, vals) == ApplyAction(acts[i], c, Replay(acts[..i], c, vals))
  {
    assert acts[..i + 1][..i] == acts[..i];
  }

  lemma ReplaySingle(a: Action, c: Component, vals: map<string, Value>)
    ensures Replay([a], c, vals) == ApplyAction(a, c, vals)
  {
    assert [a][..0] == [];
  }

  /** The event loop: the pending action queue and the flag that is set
      while actions are being processed. */
  class Loop {
    var processing: bool
    var pending: seq<Action>

    /** Every component an action is queued for is in a consistent state. */
    ghost predicate Valid()
      reads this, Targets(pending)
    {
      forall a :: a in pending ==> a.target.Valid()
    }

    constructor ()
      ensures Valid() && !processing && pending == []
    {
      processing := false;
      pending := [];
    }

    /** `loop.iter()`: run the queued actions in order with the processing
      flag set, leaving the queue empty and the flag clear. Each component's
      values become the replay of the queued actions over its old values;
      an action that fails validation is dropped and the others still run. */
    method Iter()
      requires Valid()
      modifies this, Targets(pending)
      ensures Valid() && pending == [] && !processing
      ensures forall c :: c in Targets(old(pending)) ==>
        c.Valid() && c.values == Replay(old(pending), c, old(c.values))
    {
      var acts := pending;
      var i := 0;
      while i < |acts|
        invariant 0 <= i <= |acts|
        invariant pending == acts[i..]
        invariant forall c :: c in Targets(acts) ==>
          c.Valid() && c.values == Replay(acts[..i], c, old(c.values))
        invariant i > 0 ==> processing
        modifies this, Targets(acts)
      {
        var a := pending[0];
        assert a == acts[i] && a in acts;
        pending := pending[1..];
        RunAction(a);
        forall c | c in Targets(acts)
          ensures c.Valid() && c.values == Replay(acts[..i + 1], c, old(c.values))
        {
          ReplayStep(acts, i, c, old(c.values));
        }
        i := i + 1;
      }
      processing := false;
      assert acts[..i] == acts;
    }

    /** One queued setter action, run with the processing flag set. */
    method RunAction(a: Action)
      requires a.target.Valid()
      modifies this, a.target
      ensures processing && pending == old(pending)
      ensures a.target.Valid() && a.target.values == ApplyAction(a, a.target, old(a.target.values))
    {
      processing := true;
      var _ := a.target.Mutate(this, a.name, a.arg, Set);
    }
  }

  /** A component instance: its declared properties and their current
      values. */
  class Component {
    const id: nat
    const specs: map<string, PropSpec>
    var values: map<string, Value>

    /** Every declared property holds a normalised value of its kind. */
    ghost predicate Valid()
      reads this
    {
      values.Keys == specs.Keys &&
      forall name :: name in values ==> Conforms(specs[name].kind, values[name])
    }

    /** A fresh instance holds the validated defaults. */
    constructor (id: nat, specs: map<string, PropSpec>)
      requires WellFormed(specs)
      ensures Valid() && this.id == id && this.specs == specs
      ensures values == Defaults(specs)
    {
      this.id := id;
      this.specs := specs;
      values := Defaults(specs);
    }

    /** Is there a public setter for `name`? */
    predicate Settable(name: string)
    {
      name in specs && specs[name].settable
    }

    /** `set_<name>(v)`: a setter never runs synchronously; it queues an
      action for the next loop iteration. A property without a setter (not
      settable, or not declared) raises AttributeError and queues nothing. */
    method Set(loop: Loop, name: string, v: Value) returns (r: Outcome<Error>)
      requires Valid() && loop.Valid()
      modifies loop
      ensures loop.Valid()
      ensures r == if Settable(name) then Pass else Fail(AttributeError)
      ensures loop.pending == if r.Pass? then old(loop.pending) + [Action(this, name, v)] else old(loop.pending)
      ensures loop.processing == old(loop.processing)
    {
      if Settable(name) {
        loop.pending := loop.pending + [Action(this, name, v)];
        r := Pass;
      } else {
        r := Fail(AttributeError);
      }
    }

    /** `_mutate(name, v, mode, index)`: allowed only while the loop is
      processing (AttributeError otherwise, as for an undeclared property);
      a mutation that fails (TypeError or ValueError) leaves every value as
      it was. */
    method Mutate(loop: Loop, name: string, v: Value, m: Mutation) returns (r: Outcome<Error>)
      requires Valid()
      modifies this
      ensures Valid()
      ensures !loop.processing || name !in specs ==> r == Fail(AttributeError)
      ensures loop.processing && name in specs ==>
        (r.Pass? <==> Mutated(specs[name].kind, old(values)[name], v, m).Success?)
      ensures r.Fail? ==> values == old(values)
      ensures r.Pass? ==> values == old(values)[name := Mutated(specs[name].kind, old(values)[name], v, m).value]
    {
      if !loop.processing || name !in specs {
        return Fail(AttributeError);
      }
      var res := Mutated(specs[name].kind, values[name], v, m);
      if res.Failure? {
        return Fail(res.error);
      }
      MutatedConforms(specs[name].kind, values[name], v, m);
      values := values[name := res.value];
      r := Pass;
    }
  }

  /** The keyword arguments as the setter actions they queue: all of them
      target the new instance. */
  function KwargActions(c: Component, kwargs: seq<(string, Value)>): (acts: seq<Action>)
    ensures |acts| == |kwargs|
    ensures Targets(acts) <= {c}
    ensures forall j :: 0 <= j < |kwargs| ==> acts[j] == Action(c, kwargs[j].0, kwargs[j].1)
  {
    seq(|kwargs|, j requires 0 <= j < |kwargs| => Action(c, kwargs[j].0, kwargs[j].1))
  }

  /** Index of the first keyword that names no settable property, or
      `|kwargs|` when all are settable. */
  function FirstUnsettable(c: Component, kwargs: seq<(string, Value)>): (n: nat)
    ensures n <= |kwargs|
    ensures forall j :: 0 <= j < n ==> c.Settable(kwargs[j].0)
    ensures n < |kwargs| ==> !c.Settable(kwargs[n].0)
    decreases |kwargs|
  {
    if |kwargs| == 0 || !c.Settable(kwargs[0].0) then 0
    else 1 + FirstUnsettable(c, kwargs[1..])
  }

  /** `MyClass(**kwargs)`: the instance starts at its defaults and each
      keyword calls the property's setter, so keyword values are visible only
      after the next loop iteration. A keyword without a setter raises
      AttributeError; the setters called for earlier keywords stay queued. */
  method Create(loop: Loop, id: nat, specs: map<string, PropSpec>, kwargs: seq<(string, Value)>)
    returns (c: Component, r: Outcome<Error>)
    requires WellFormed(specs) && loop.Valid()
    modifies loop
    ensures fresh(c) && c.Valid() && c.specs == specs && c.id == id && c.values == Defaults(specs)
    ensures loop.Valid() && loop.processing == old(loop.processing)
    ensures var n := FirstUnsettable(c, kwargs);
            (r.Pass? <==> n == |kwargs|) &&
            (r.Fail? ==> r.error == AttributeError) &&
            loop.pending == old(loop.pending) + KwargActions(c, kwargs[..n])
  {
    c := new Component(id, specs);
    r := QueueSetters(loop, c, kwargs);
  }

  /** The setter calls for the keywords, in order, up to the first keyword
      without a setter. */
  method QueueSetters(loop: Loop, c: Component, kwargs: seq<(string, Value)>) returns (r: Outcome<Error>)
    requires c.Valid() && loop.Valid()
    modifies loop
    ensures loop.Valid() && loop.processing == old(loop.processing)
    ensures var n := FirstUnsettable(c, kwargs);
            (r.Pass? <==> n == |kwargs|) &&
            (r.Fail? ==> r.error == AttributeError) &&
            loop.pending == old(loop.pending) + KwargActions(c, kwargs[..n])
  {
    var i := 0;
    while i < |kwargs|
      invariant 0 <= i <= |kwargs|
      invariant forall j :: 0 <= j < i ==> c.Settable(kwargs[j].0)
      invariant loop.pending == old(loop.pending) + KwargActions(c, kwargs[..i])
      invariant loop.Valid() && loop.processing == old(loop.processing)
    {
      var res := c.Set(loop, kwargs[i].0, kwargs[i].1);
      if res.Fail? {
        FirstUnsettableIs(c, kwargs, i);
        return res;
      }
      KwargActionsSnoc(c, kwargs, i);
      i := i + 1;
    }
    assert kwargs[..i] == kwargs;
    FirstUnsettableIs(c, kwargs, |kwargs|);
    r := Pass;
  }

  lemma KwargActionsSnoc(c: Component, kwargs: seq<(string, Value)>, i: nat)
    requires i < |kwargs|
    ensures KwargActions(c, kwargs[..i + 1]) == KwargActions(c, kwargs[..i]) + [Action(c, kwargs[i].0, kwargs[i].1)]
  {
    var a, b := KwargActions(c, kwargs[..i + 1]), KwargActions(c, kwargs[..i]) + [Action(c, kwargs[i].0, kwargs[i].1)];
    assert |a| == |b|;
    forall j | 0 <= j < |a| ensures a[j] == b[j] {
      if j < i {
        assert kwargs[..i + 1][j] == kwargs[..i][j];
      }
    }
  }

  /** The first unsettable keyword is the one where every earlier keyword
      is settable and this one is not. */
  lemma {:induction false} FirstUnsettableIs(c: Component, kwargs: seq<(string, Value)>, n: nat)
    requires n <= |kwargs|
    requires forall j :: 0 <= j < n ==> c.Settable(kwargs[j].0)
    requires n < |kwargs| ==> !c.Settable(kwargs[n].0)
    ensures FirstUnsettable(c, kwargs) == n
    decreases n
  {
    if n > 0 {
      FirstUnsettableIs(c, kwargs[1..], n - 1);
    }
  }
}

/** The test class `MyObject` of the property tests and the scenarios those
    tests run, each stated as the values the tests print. */
module PropertyScenarios {
  import opened Wrappers
  import opened Values
  import opened Properties
  import opened Components

  /** The properties of `MyObject`, with the kinds' own defaults where the
      declaration gives none. */
  function MyObjectSpecs(): map<string, PropSpec>
  {
    map[
      "foo" := PropSpec(AnyKind, Int(6), true),
      "bar" := PropSpec(StringKind, Str("xx"), false),
      "eggs" := PropSpec(ListKind, List([]), true),
      "eggs3" := PropSpec(ListKind, List([Int(3), Int(4)]), false),
      "anyprop" := PropSpec(AnyKind, Null, true),
      "boolprop" := PropSpec(BoolKind, Bool(false), true),
      "intprop" := PropSpec(IntKind, Int(0), true),
      "floatprop" := PropSpec(FloatKind, Float(0.0), true),
      "stringprop" := PropSpec(StringKind, Str(""), true),
      "tupleprop" := PropSpec(TupleKind, Tuple([]), true),
      "listprop" := PropSpec(ListKind, List([]), true),
      "componentprop" := PropSpec(ComponentKind, Null, true),
      "myprop" := PropSpec(AbcKind, Str("a"), true)
    ]
  }

  /** Every default of `MyObject` passes its validator, so the class can be
      declared. */
  lemma MyObjectWellFormed()
    ensures WellFormed(MyObjectSpecs())
  {
    var specs := MyObjectSpecs();
    MyObjectDefaultsValid();
    forall name | name in specs
      ensures Validate(specs[name].kind, specs[name].default).Success?
    {
      if name == "foo" || name == "anyprop" {
      } else if name == "bar" || name == "stringprop" {
      } else if name == "eggs" || name == "eggs3" || name == "listprop" {
      } else if name == "boolprop" || name == "intprop" || name == "floatprop" {
      } else if name == "tupleprop" || name == "componentprop" {
      } else {
        assert name == "myprop";
      }
    }
  }

  /** Each declared default of `MyObject` passes its kind's validator. */
  lemma MyObjectDefaultsValid()
    ensures Admits(AnyKind, Int(6)) && Admits(AnyKind, Null)
    ensures Admits(StringKind, Str("xx")) && Admits(StringKind, Str(""))
    ensures Admits(ListKind, List([])) && Admits(ListKind, List([Int(3), Int(4)]))
    ensures Admits(BoolKind, Bool(false)) && Admits(IntKind, Int(0)) && Admits(FloatKind, Float(0.0))
    ensures Admits(TupleKind, Tuple([])) && Admits(ComponentKind, Null)
    ensures Admits(AbcKind, Str("a"))
  {
    assert "a" <= "abc";
  }

  /** `name` is declared with exactly this kind, default and settability. */
  predicate Declares(specs: map<string, PropSpec>, name: string, spec: PropSpec)
  {
    name in specs && specs[name] == spec
  }

  /** `MyObject` declares the properties the scenarios below are stated
      for; each scenario holds for any class with those declarations. */
  lemma MyObjectDeclares()
    ensures var specs := MyObjectSpecs();
      && Declares(specs, "foo", PropSpec(AnyKind, Int(6), true))
      && Declares(specs, "bar", PropSpec(StringKind, Str("xx"), false))
      && Declares(specs, "eggs", PropSpec(ListKind, List([]), true))
      && Declares(specs, "eggs3", PropSpec(ListKind, List([Int(3), Int(4)]), false))
      && Declares(specs, "boolprop", PropSpec(BoolKind, Bool(false), true))
      && Declares(specs, "intprop", PropSpec(IntKind, Int(0), true))
      && Declares(specs, "floatprop", PropSpec(FloatKind, Float(0.0), true))
      && Declares(specs, "tupleprop", PropSpec(TupleKind, Tuple([]), true))
      && Declares(specs, "componentprop", PropSpec(ComponentKind, Null, true))
      && Declares(specs, "myprop", PropSpec(AbcKind, Str("a"), true))
  {
  }

  /** `set_foo(3.2)` takes effect only at `loop.iter()`; `set_bar` fails on
      the non-settable `bar`, which keeps "xx". */
  method PropertySetting(specs: map<string, PropSpec>) returns (before: Value, queued: Value, after: Value, barSet: Outcome<Error>, bar: Value)
    requires WellFormed(specs)
    requires Declares(specs, "foo", PropSpec(AnyKind, Int(6), true))
    requires Declares(specs, "bar", PropSpec(StringKind, Str("xx"), false))
    ensures before == Int(6) && queued == Int(6) && after == Float(3.2)
    ensures barSet == Fail(AttributeError) && bar == Str("xx")
  {
    FloatKeepsFloats(3.2);
    var loop := new Loop();
    var m := new Component(0, specs);
    before := m.values["foo"];
    var _ := m.Set(loop, "foo", Float(3.2));
    queued := m.values["foo"];
    IterOne(loop, m, "foo", Float(3.2));
    after := m.values["foo"];
    barSet := m.Set(loop, "bar", Str("yy"));
    bar := m.values["bar"];
  }

  /** Mutating outside an action raises AttributeError and keeps 6; with the
      processing flag forced on, the same mutation stores 9. */
  method PropertyMutating(specs: map<string, PropSpec>) returns (denied: Outcome<Error>, between: Value, after: Value)
    requires WellFormed(specs)
    requires Declares(specs, "foo", PropSpec(AnyKind, Int(6), true))
    ensures denied == Fail(AttributeError) && between == Int(6) && after == Int(9)
  {
    var loop := new Loop();
    var m := new Component(0, specs);
    denied := m.Mutate(loop, "foo", Int(9), Set);
    between := m.values["foo"];
    loop.processing := true;
    var _ := m.Mutate(loop, "foo", Int(9), Set);
    after := m.values["foo"];
  }

  /** `MyObject(foo=9)` shows 6 until the loop iterates, then 9;
      `MyObject(bar='yy')` fails. */
  method PropertyKeywords(specs: map<string, PropSpec>) returns (before: Value, after: Value, bar: Value, failed: Outcome<Error>)
    requires WellFormed(specs)
    requires Declares(specs, "foo", PropSpec(AnyKind, Int(6), true))
    requires Declares(specs, "bar", PropSpec(StringKind, Str("xx"), false))
    ensures before == Int(6) && after == Int(9) && bar == Str("xx")
    ensures failed == Fail(AttributeError)
  {
    var loop := new Loop();
    var kwargs := [("foo", Int(9))];
    var m, _ := Create(loop, 0, specs, kwargs);
    FirstUnsettableIs(m, kwargs, 1);
    assert kwargs[..1] == kwargs;
    assert loop.pending == [Action(m, "foo", Int(9))];
    before := m.values["foo"];
    IterOne(loop, m, "foo", Int(9));
    after := m.values["foo"];
    bar := m.values["bar"];
    var bad := [("bar", Str("yy"))];
    var m2;
    m2, failed := Create(loop, 1, specs, bad);
    FirstUnsettableIs(m2, bad, 0);
  }

  /** The list mutations of the tests, one step at a time: four inserts
      build [1..8], a replace gives [1, 2, 3, 44, 55, 66, 7, 8], removing
      three items at index 3 gives [1, 2, 3, 7, 8]. */
  lemma EggsInserts()
    ensures Mutated(ListKind, List([]), List([Int(5), Int(6)]), Insert(0))
      == Success(List([Int(5), Int(6)]))
    ensures Mutated(ListKind, List([Int(5), Int(6)]), List([Int(1), Int(2)]), Insert(0))
      == Success(List([Int(1), Int(2), Int(5), Int(6)]))
    ensures Mutated(ListKind, List([Int(1), Int(2), Int(5), Int(6)]), List([Int(3), Int(4)]), Insert(2))
      == Success(List([Int(1), Int(2), Int(3), Int(4), Int(5), Int(6)]))
    ensures Mutated(ListKind, List([Int(1), Int(2), Int(3), Int(4), Int(5), Int(6)]), List([Int(7), Int(8)]), Insert(6))
      == Success(List([Int(1), Int(2), Int(3), Int(4), Int(5), Int(6), Int(7), Int(8)]))
  {
    var e: seq<Value> := [];
    var s1, s2 := [Int(5), Int(6)], [Int(1), Int(2), Int(5), Int(6)];
    var s3 := [Int(1), Int(2), Int(3), Int(4), Int(5), Int(6)];
    InsertInRange(e, s1, 0);
    assert e[..0] + s1 + e[0..] == s1;
    InsertInRange(s1, [Int(1), Int(2)], 0);
    assert s1[..0] + [Int(1), Int(2)] + s1[0..] == s2;
    InsertInRange(s2, [Int(3), Int(4)], 2);
    assert s2[..2] + [Int(3), Int(4)] + s2[2..] == s3;
    InsertInRange(s3, [Int(7), Int(8)], 6);
    assert s3[..6] + [Int(7), Int(8)] + s3[6..] == [Int(1), Int(2), Int(3), Int(4), Int(5), Int(6), Int(7), Int(8)];
  }

  lemma EggsReplaceRemove()
    ensures Mutated(ListKind, List([Int(1), Int(2), Int(3), Int(4), Int(5), Int(6), Int(7), Int(8)]),
                    List([Int(44), Int(55), Int(66)]), Replace(3))
      == Success(List([Int(1), Int(2), Int(3), Int(44), Int(55), Int(66), Int(7), Int(8)]))
    ensures Mutated(ListKind, List([Int(1), Int(2), Int(3), Int(44), Int(55), Int(66), Int(7), Int(8)]),
                    Int(3), Remove(3))
      == Success(List([Int(1), Int(2), Int(3), Int(7), Int(8)]))
  {
    var full: seq<Value> := [Int(1), Int(2), Int(3), Int(4), Int(5), Int(6), Int(7), Int(8)];
    var objs: seq<Value> := [Int(44), Int(55), Int(66)];
    var replaced: seq<Value> := [Int(1), Int(2), Int(3), Int(44), Int(55), Int(66), Int(7), Int(8)];
    assert Mutated(ListKind, List(full), List(objs), Replace(3)) == Success(List(AssignSlice(full, 3, 6, objs)));
    assert AssignSlice(full, 3, 6, objs) == full[..3] + objs + full[6..];
    assert full[..3] + objs + full[6..] == replaced;
    RemoveInRange(replaced, 3, 3);
    assert replaced[..3] + replaced[6..] == [Int(1), Int(2), Int(3), Int(7), Int(8)];
  }

  method ListMutations(specs: map<string, PropSpec>) returns (start: Value, inserted: Value, replaced: Value, removed: Value)
    requires WellFormed(specs)
    requires Declares(specs, "eggs", PropSpec(ListKind, List([]), true))
    ensures start == List([])
    ensures inserted == List([Int(1), Int(2), Int(3), Int(4), Int(5), Int(6), Int(7), Int(8)])
    ensures replaced == List([Int(1), Int(2), Int(3), Int(44), Int(55), Int(66), Int(7), Int(8)])
    ensures removed == List([Int(1), Int(2), Int(3), Int(7), Int(8)])
  {
    var loop := new Loop();
    var m := new Component(0, specs);
    start := m.values["eggs"];
    loop.processing := true;
    InsertEggs(loop, m);
    inserted := m.values["eggs"];
    EggsReplaceRemove();
    var _ := m.Mutate(loop, "eggs", List([Int(44), Int(55), Int(66)]), Replace(3));
    replaced := m.values["eggs"];
    var _ := m.Mutate(loop, "eggs", Int(3), Remove(3));
    removed := m.values["eggs"];
  }

  /** The four inserts of the list scenario, from an empty list. */
  method InsertEggs(loop: Loop, m: Component)
    requires m.Valid() && loop.processing
    requires Declares(m.specs, "eggs", PropSpec(ListKind, List([]), true)) && m.values["eggs"] == List([])
    modifies m
    ensures m.Valid()
    ensures m.values["eggs"] == List([Int(1), Int(2), Int(3), Int(4), Int(5), Int(6), Int(7), Int(8)])
  {
    EggsInserts();
    var _ := m.Mutate(loop, "eggs", List([Int(5), Int(6)]), Insert(0));
    var _ := m.Mutate(loop, "eggs", List([Int(1), Int(2)]), Insert(0));
    var _ := m.Mutate(loop, "eggs", List([Int(3), Int(4)]), Insert(2));
    var _ := m.Mutate(loop, "eggs", List([Int(7), Int(8)]), Insert(6));
  }

  /** `loop.iter()` with one setter action queued: the property takes the
      validated value, or keeps its value when the validator rejects the
      argument. */
  method IterOne(loop: Loop, m: Component, name: string, v: Value)
    requires loop.Valid() && loop.pending == [Action(m, name, v)] && m.Valid() && name in m.specs
    modifies loop, m
    ensures loop.Valid() && loop.pending == [] && !loop.processing && m.Valid()
    ensures var r := Validate(m.specs[name].kind, v);
      m.values == if r.Success? then old(m.values)[name := r.value] else old(m.values)
  {
    assert m in Targets(loop.pending);
    ReplaySingle(Action(m, name, v), m, m.values);
    loop.Iter();
  }

  /** `m.set_<name>(v)` followed by `loop.iter()`, as each test does. */
  method SetThenIter(loop: Loop, m: Component, name: string, v: Value)
    requires loop.Valid() && loop.pending == [] && m.Valid() && m.Settable(name)
    modifies loop, m
    ensures loop.Valid() && loop.pending == [] && !loop.processing && m.Valid()
    ensures var r := Validate(m.specs[name].kind, v);
      m.values == if r.Success? then old(m.values)[name := r.value] else old(m.values)
  {
    var _ := m.Set(loop, name, v);
    assert loop.pending == [Action(m, name, v)];
    IterOne(loop, m, name, v);
  }

  /** Int: 0 by default, 42.9 becomes 42, "9" becomes 9, the loop object is
      rejected and 9 stays. */
  method IntProperty(specs: map<string, PropSpec>) returns (v0: Value, v1: Value, v2: Value, v3: Value)
    requires WellFormed(specs)
    requires Declares(specs, "intprop", PropSpec(IntKind, Int(0), true))
    ensures v0 == Int(0) && v1 == Int(42) && v2 == Int(9) && v3 == Int(9)
  {
    IntCoercions(0);
    var loop := new Loop();
    var m := new Component(0, specs);
    v0 := m.values["intprop"];
    SetThenIter(loop, m, "intprop", Float(42.9));
    v1 := m.values["intprop"];
    SetThenIter(loop, m, "intprop", Str("9"));
    v2 := m.values["intprop"];
    SetThenIter(loop, m, "intprop", Object(0));
    v3 := m.values["intprop"];
  }

  /** The validations the component and custom-property tests rely on. */
  lemma ComponentAndAbcSteps()
    ensures Validate(ComponentKind, Comp(1)) == Success(Comp(1))
    ensures Validate(ComponentKind, Comp(2)) == Success(Comp(2))
    ensures Validate(ComponentKind, Null) == Success(Null)
    ensures Validate(ComponentKind, Int(3)).Failure? && Validate(ComponentKind, Object(0)).Failure?
    ensures Validate(ComponentKind, Str("asd")).Failure?
    ensures Validate(AbcKind, Str("c")) == Success(Str("c"))
    ensures Validate(AbcKind, Int(3)).Failure? && Validate(AbcKind, Object(0)).Failure?
    ensures Validate(AbcKind, Str("d")).Failure?
  {
  }

  /** Component: None by default, then the instances m1 and m2, then None
      again; 3, the loop object and "asd" are rejected. */
  method ComponentProperty(specs: map<string, PropSpec>) returns (v0: Value, v1: Value, v2: Value, v3: Value, v4: Value)
    requires WellFormed(specs)
    requires Declares(specs, "componentprop", PropSpec(ComponentKind, Null, true))
    ensures v0 == Null && v1 == Comp(1) && v2 == Comp(2) && v3 == Null && v4 == Null
  {
    ComponentAndAbcSteps();
    var loop := new Loop();
    var m := new Component(0, specs);
    var m1 := new Component(1, specs);
    var m2 := new Component(2, specs);
    v0 := m.values["componentprop"];
    SetThenIter(loop, m, "componentprop", Comp(m1.id));
    v1 := m.values["componentprop"];
    SetThenIter(loop, m, "componentprop", Comp(m2.id));
    v2 := m.values["componentprop"];
    SetThenIter(loop, m, "componentprop", Null);
    v3 := m.values["componentprop"];
    SetThenIter(loop, m, "componentprop", Int(3));
    SetThenIter(loop, m, "componentprop", Object(0));
    SetThenIter(loop, m, "componentprop", Str("asd"));
    v4 := m.values["componentprop"];
  }

  /** The custom property: "a" by default, "c" once set; 3, the loop object
      and "d" are rejected and "c" stays. */
  method CustomProperty(specs: map<string, PropSpec>) returns (v0: Value, v1: Value, v2: Value)
    requires WellFormed(specs)
    requires Declares(specs, "myprop", PropSpec(AbcKind, Str("a"), true))
    ensures v0 == Str("a") && v1 == Str("c") && v2 == Str("c")
  {
    ComponentAndAbcSteps();
    var loop := new Loop();
    var m := new Component(0, specs);
    v0 := m.values["myprop"];
    SetThenIter(loop, m, "myprop", Str("c"));
    v1 := m.values["myprop"];
    SetThenIter(loop, m, "myprop", Int(3));
    SetThenIter(loop, m, "myprop", Object(0));
    SetThenIter(loop, m, "myprop", Str("d"));
    v2 := m.values["myprop"];
  }

  /** Bool converts by truthiness and never fails: 42 gives True, "" gives
      False, the loop object gives True. */
  method BoolProperty(specs: map<string, PropSpec>) returns (v0: Value, v1: Value, v2: Value, v3: Value)
    requires WellFormed(specs)
    requires Declares(specs, "boolprop", PropSpec(BoolKind, Bool(false), true))
    ensures v0 == Bool(false) && v1 == Bool(true) && v2 == Bool(false) && v3 == Bool(true)
  {
    BoolCoercions(0);
    var loop := new Loop();
    var m := new Component(0, specs);
    v0 := m.values["boolprop"];
    SetThenIter(loop, m, "boolprop", Int(42));
    v1 := m.values["boolprop"];
    SetThenIter(loop, m, "boolprop", Str(""));
    v2 := m.values["boolprop"];
    SetThenIter(loop, m, "boolprop", Object(0));
    v3 := m.values["boolprop"];
  }

  /** Float: 0 by default, keeps 42.9, parses "9.1", rejects the loop
      object and keeps 9.1. */
  method FloatProperty(specs: map<string, PropSpec>) returns (v0: Value, v1: Value, v2: Value, v3: Value)
    requires WellFormed(specs)
    requires Declares(specs, "floatprop", PropSpec(FloatKind, Float(0.0), true))
    ensures v0 == Float(0.0) && v1 == Float(42.9) && v2 == Float(9.1) && v3 == Float(9.1)
  {
    FloatCoercions(0);
    var loop := new Loop();
    var m := new Component(0, specs);
    v0 := m.values["floatprop"];
    SetThenIter(loop, m, "floatprop", Float(42.9));
    v1 := m.values["floatprop"];
    SetThenIter(loop, m, "floatprop", Str("9.1"));
    v2 := m.values["floatprop"];
    SetThenIter(loop, m, "floatprop", Object(0));
    v3 := m.values["floatprop"];
  }

  /** The validations the tuple test relies on. */
  lemma TupleSteps()
    ensures Validate(TupleKind, Tuple([Int(3), Int(4)])) == Success(Tuple([Int(3), Int(4)]))
    ensures Validate(TupleKind, Tuple([Int(5), Int(6)])) == Success(Tuple([Int(5), Int(6)]))
    ensures Validate(TupleKind, Int(3)).Failure? && Validate(TupleKind, Null).Failure?
    ensures Validate(TupleKind, Str("asd")).Failure?
  {
  }

  /** Tuple: () by default, then (3, 4), then (5, 6); 3, None and "asd" are
      rejected and (5, 6) stays. */
  method TupleProperty(specs: map<string, PropSpec>) returns (v0: Value, v1: Value, v2: Value, v3: Value)
    requires WellFormed(specs)
    requires Declares(specs, "tupleprop", PropSpec(TupleKind, Tuple([]), true))
    ensures v0 == Tuple([]) && v1 == Tuple([Int(3), Int(4)])
    ensures v2 == Tuple([Int(5), Int(6)]) && v3 == Tuple([Int(5), Int(6)])
  {
    TupleSteps();
    var loop := new Loop();
    var m := new Component(0, specs);
    v0 := m.values["tupleprop"];
    SetThenIter(loop, m, "tupleprop", Tuple([Int(3), Int(4)]));
    v1 := m.values["tupleprop"];
    SetThenIter(loop, m, "tupleprop", Tuple([Int(5), Int(6)]));
    v2 := m.values["tupleprop"];
    SetThenIter(loop, m, "tupleprop", Int(3));
    SetThenIter(loop, m, "tupleprop", Null);
    SetThenIter(loop, m, "tupleprop", Str("asd"));
    v3 := m.values["tupleprop"];
  }

  /** Any: None by default, then 42, then the loop object itself. */
  method AnyProperty(specs: map<string, PropSpec>) returns (v0: Value, v1: Value, v2: Value)
    requires WellFormed(specs)
    requires Declares(specs, "anyprop", PropSpec(AnyKind, Null, true))
    ensures v0 == Null && v1 == Int(42) && v2 == Object(0)
  {
    var loop := new Loop();
    var m := new Component(0, specs);
    v0 := m.values["anyprop"];
    SetThenIter(loop, m, "anyprop", Int(42));
    v1 := m.values["anyprop"];
    SetThenIter(loop, m, "anyprop", Object(0));
    v2 := m.values["anyprop"];
  }

  /** String: "" by default, then "hello"; 3 is rejected and "hello"
      stays. */
  method StringProperty(specs: map<string, PropSpec>) returns (v0: Value, v1: Value, v2: Value)
    requires WellFormed(specs)
    requires Declares(specs, "stringprop", PropSpec(StringKind, Str(""), true))
    ensures v0 == Str("") && v1 == Str("hello") && v2 == Str("hello")
  {
    Rejections(0);
    var loop := new Loop();
    var m := new Component(0, specs);
    v0 := m.values["stringprop"];
    SetThenIter(loop, m, "stringprop", Str("hello"));
    v1 := m.values["stringprop"];
    SetThenIter(loop, m, "stringprop", Int(3));
    v2 := m.values["stringprop"];
  }

  /** The validations the list test relies on: a tuple is stored as a
      list. */
  lemma ListSteps()
    ensures Validate(ListKind, Tuple([Int(3), Int(4)])) == Success(List([Int(3), Int(4)]))
    ensures Validate(ListKind, Tuple([Int(5), Int(6)])) == Success(List([Int(5), Int(6)]))
    ensures Validate(ListKind, Int(3)).Failure? && Validate(ListKind, Null).Failure?
    ensures Validate(ListKind, Str("asd")).Failure?
  {
  }

  /** List: [] by default, then [3, 4] and [5, 6] set from tuples; 3, None
      and "asd" are rejected and [5, 6] stays. */
  method ListProperty(specs: map<string, PropSpec>) returns (v0: Value, v1: Value, v2: Value, v3: Value)
    requires WellFormed(specs)
    requires Declares(specs, "listprop", PropSpec(ListKind, List([]), true))
    ensures v0 == List([]) && v1 == List([Int(3), Int(4)])
    ensures v2 == List([Int(5), Int(6)]) && v3 == List([Int(5), Int(6)])
  {
    ListSteps();
    var loop := new Loop();
    var m := new Component(0, specs);
    v0 := m.values["listprop"];
    SetThenIter(loop, m, "listprop", Tuple([Int(3), Int(4)]));
    v1 := m.values["listprop"];
    SetThenIter(loop, m, "listprop", Tuple([Int(5), Int(6)]));
    v2 := m.values["listprop"];
    SetThenIter(loop, m, "listprop", Int(3));
    SetThenIter(loop, m, "listprop", Null);
    SetThenIter(loop, m, "listprop", Str("asd"));
    v3 := m.values["listprop"];
  }

  /** The custom defaults of the test class `MyDefaults` are what a fresh
      instance holds: 7, True, -9, 800.45, "heya", (2, "xx"), [3, "yy"],
      None and "b". */
  method CustomDefaults(specs: map<string, PropSpec>) returns (vals: map<string, Value>)
    requires WellFormed(specs)
    requires Declares(specs, "anyprop2", PropSpec(AnyKind, Int(7), false))
    requires Declares(specs, "boolprop2", PropSpec(BoolKind, Bool(true), false))
    requires Declares(specs, "intprop2", PropSpec(IntKind, Int(-9), false))
    requires Declares(specs, "floatprop2", PropSpec(FloatKind, Float(800.45), false))
    requires Declares(specs, "stringprop2", PropSpec(StringKind, Str("heya"), false))
    requires Declares(specs, "tupleprop2", PropSpec(TupleKind, Tuple([Int(2), Str("xx")]), false))
    requires Declares(specs, "listprop2", PropSpec(ListKind, List([Int(3), Str("yy")]), false))
    requires Declares(specs, "componentprop2", PropSpec(ComponentKind, Null, false))
    requires Declares(specs, "myprop2", PropSpec(AbcKind, Str("b"), true))
    ensures vals.Keys == specs.Keys
    ensures vals["anyprop2"] == Int(7) && vals["boolprop2"] == Bool(true)
    ensures vals["intprop2"] == Int(-9) && vals["floatprop2"] == Float(800.45)
    ensures vals["stringprop2"] == Str("heya") && vals["tupleprop2"] == Tuple([Int(2), Str("xx")])
    ensures vals["listprop2"] == List([Int(3), Str("yy")]) && vals["componentprop2"] == Null
    ensures vals["myprop2"] == Str("b")
  {
    FloatKeepsFloats(800.45);
    var m := new Component(0, specs);
    vals := m.values;
  }

  /** The list properties start as [] and [3, 4]. */
  method ListInit(specs: map<string, PropSpec>) returns (eggs: Value, eggs3: Value)
    requires WellFormed(specs)
    requires Declares(specs, "eggs", PropSpec(ListKind, List([]), true))
    requires Declares(specs, "eggs3", PropSpec(ListKind, List([Int(3), Int(4)]), false))
    ensures eggs == List([]) && eggs3 == List([Int(3), Int(4)])
  {
    var m := new Component(0, specs);
    eggs := m.values["eggs"];
    eggs3 := m.values["eggs3"];
  }
}
