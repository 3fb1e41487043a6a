/** The `ToolbarWidget` controller: the registry it builds from the requested tool names, the
    bindings its buttons give the tools, and its operations on the shared target element and
    the hidden input that holds the serialised aggregate state. */
module Toolbar {
  import opened Dom
  import opened Tokens
  import opened Tools

  /** The aggregate state: tool name to the value that tool detects. */
  type Aggregate = map<string, Value>

  /** The hidden input's text: empty, the serialisation of a parsed value (`None` for a JSON
      value that is falsy, such as `null`), or text JSON cannot parse. */
  datatype InputText = Blank | Serialized(parsed: Option<Aggregate>) | Malformed

  /** The errors the controller's constructor throws. */
  datatype Error =
    | MissingTarget
    | UnresolvedTarget
    | MalformedInput
    | UnknownTool(name: string)
    | ButtonToolNotFound(name: string)
    | PickrMissing

  /** `registeredTools`, one tool instance per requested name (`instances[k]` is the clone made
      for `names[k]`), `_registeredToolObjects` as name to instance index, and `_toolGroups` as
      group name to the member instances in registration order. */
  datatype Registry = Registry(
    names: seq<string>,
    instances: seq<Tool>,
    objects: map<string, nat>,
    groups: map<string, seq<nat>>)

  /** A tool that `if (toolObj.group)` puts into the group list `g`. */
  predicate InGroup(t: Tool, g: string) {
    t.Group() == Some(g) && g != ""
  }

  /** The shape every registry the constructor builds has: every name maps to an instance
      made for that name, and every group lists only instances of that group. */
  predicate WellFormed(reg: Registry) {
    |reg.instances| == |reg.names|
    && (forall k :: 0 <= k < |reg.names| ==> reg.names[k] in reg.objects)
    && (forall n :: n in reg.objects ==> reg.objects[n] < |reg.names| && reg.names[reg.objects[n]] == n)
    && (forall g, m :: g in reg.groups && 0 <= m < |reg.groups[g]| ==>
          reg.groups[g][m] < |reg.instances| && InGroup(reg.instances[reg.groups[g][m]], g))
  }

  /** The position of the first name the lookup does not know, or `|names|`. */
  function FirstUnknown(extensions: map<string, Tool>, names: seq<string>): (r: nat)
    ensures r <= |names|
    ensures forall k :: 0 <= k < r ==> Lookup(extensions, names[k]).Some?
    ensures r < |names| ==> Lookup(extensions, names[r]).None?
    decreases |names|
  {
    if |names| == 0 || Lookup(extensions, names[0]).None? then 0
    else 1 + FirstUnknown(extensions, names[1..])
  }

  /** `_registeredToolObjects` after registering `names`: each name maps to the position of
      its last occurrence, since a later registration under the same name overwrites. */
  function ObjectsOf(names: seq<string>): (r: map<string, nat>)
    ensures forall n :: n in r <==> n in names
    ensures forall n :: n in r ==> r[n] < |names| && names[r[n]] == n
    ensures forall n :: n in r ==> forall j :: r[n] < j < |names| ==> names[j] != n
    decreases |names|
  {
    if |names| == 0 then map[]
    else
      var p := names[..|names| - 1];
      assert names == p + [names[|names| - 1]];
      ObjectsOfExtend(p, names[|names| - 1], ObjectsOf(p));
      ObjectsOf(p)[names[|names| - 1] := |names| - 1]
  }

  /** Registering one more name keeps the shape `ObjectsOf` promises. */
  lemma ObjectsOfExtend(p: seq<string>, n: string, r: map<string, nat>)
    requires forall x :: x in r <==> x in p
    requires forall x :: x in r ==> r[x] < |p| && p[r[x]] == x
    requires forall x :: x in r ==> forall j :: r[x] < j < |p| ==> p[j] != x
    ensures var q, r' := p + [n], r[n := |p|];
            (forall x :: x in r' <==> x in q)
            && (forall x :: x in r' ==> r'[x] < |q| && q[r'[x]] == x)
            && (forall x :: x in r' ==> forall j :: r'[x] < j < |q| ==> q[j] != x)
  {
    var q, r' := p + [n], r[n := |p|];
    assert forall x :: x in q <==> x in p || x == n;
    forall x | x in r' ensures r'[x] < |q| && q[r'[x]] == x && forall j :: r'[x] < j < |q| ==> q[j] != x {
      if x != n {
        assert q[r[x]] == p[r[x]];
        assert forall j :: r[x] < j < |p| ==> q[j] == p[j];
      }
    }
  }

  /** `_toolGroups` after registering `insts`: every instance with a truthy group is appended
      to that group's list, which is created on first use. */
  function GroupsOf(insts: seq<Tool>): map<string, seq<nat>>
    decreases |insts|
  {
    if |insts| == 0 then map[]
    else
      var before := GroupsOf(insts[..|insts| - 1]);
      var t := insts[|insts| - 1];
      if t.Group().Some? && t.Group().value != "" then
        var g := t.Group().value;
        before[g := (if g in before then before[g] else []) + [|insts| - 1]]
      else before
  }

  /** There is a group list for every group some instance belongs to and for no other. */
  lemma {:induction false} GroupsOfKeys(insts: seq<Tool>)
    ensures forall g :: g in GroupsOf(insts) <==> exists j :: 0 <= j < |insts| && InGroup(insts[j], g)
    decreases |insts|
  {
    if |insts| > 0 {
      var p := insts[..|insts| - 1];
      var t := insts[|insts| - 1];
      GroupsOfKeys(p);
      forall g ensures g in GroupsOf(insts) <==> exists j :: 0 <= j < |insts| && InGroup(insts[j], g) {
        if g in GroupsOf(p) {
          var j :| 0 <= j < |p| && InGroup(p[j], g);
          assert p[j] == insts[j];
        }
        if exists j :: 0 <= j < |insts| && InGroup(insts[j], g) {
          var j :| 0 <= j < |insts| && InGroup(insts[j], g);
          if j < |p| {
            assert p[j] == insts[j];
          }
        }
      }
    }
  }

  /** Each group list holds exactly the instances of its group, in registration order. */
  lemma {:induction false} GroupsOfMembers(insts: seq<Tool>, g: string)
    requires g in GroupsOf(insts)
    ensures forall j: nat :: j in GroupsOf(insts)[g] <==> j < |insts| && InGroup(insts[j], g)
    ensures forall a, b :: 0 <= a < b < |GroupsOf(insts)[g]| ==> GroupsOf(insts)[g][a] < GroupsOf(insts)[g][b]
    decreases |insts|
  {
    var p := insts[..|insts| - 1];
    var t := insts[|insts| - 1];
    var before := GroupsOf(p);
    var list := GroupsOf(insts)[g];
    var old_ := if g in before then before[g] else [];
    if g in before {
      GroupsOfMembers(p, g);
    } else {
      GroupsOfKeys(p);
    }
    assert forall j :: 0 <= j < |p| ==> p[j] == insts[j];
    assert forall a :: 0 <= a < |old_| ==> old_[a] < |p| by {
      forall a | 0 <= a < |old_| ensures old_[a] < |p| { assert old_[a] in old_; }
    }
    if InGroup(t, g) {
      assert list == old_ + [|insts| - 1];
    } else {
      assert list == old_;
    }
  }

  /** The group lists a registry built from `insts` has. */
  lemma GroupsOfLists(insts: seq<Tool>)
    ensures forall g :: g in GroupsOf(insts) <==> exists j :: 0 <= j < |insts| && InGroup(insts[j], g)
    ensures forall g :: g in GroupsOf(insts) ==>
              forall j: nat :: j in GroupsOf(insts)[g] <==> j < |insts| && InGroup(insts[j], g)
    ensures forall g :: g in GroupsOf(insts) ==>
              forall a, b :: 0 <= a < b < |GroupsOf(insts)[g]| ==> GroupsOf(insts)[g][a] < GroupsOf(insts)[g][b]
  {
    GroupsOfKeys(insts);
    forall g | g in GroupsOf(insts)
      ensures forall j: nat :: j in GroupsOf(insts)[g] <==> j < |insts| && InGroup(insts[j], g)
      ensures forall a, b :: 0 <= a < b < |GroupsOf(insts)[g]| ==> GroupsOf(insts)[g][a] < GroupsOf(insts)[g][b]
    {
      GroupsOfMembers(insts, g);
    }
  }

  /** The instances the constructor's first loop creates when every name is known. */
  function ToolsOf(extensions: map<string, Tool>, names: seq<string>): (r: seq<Tool>)
    requires forall k :: 0 <= k < |names| ==> Lookup(extensions, names[k]).Some?
    ensures |r| == |names| && forall k :: 0 <= k < |names| ==> Lookup(extensions, names[k]) == Some(r[k])
  {
    seq(|names|, j requires 0 <= j < |names| => Lookup(extensions, names[j]).value)
  }

  /** Registering instances for names, one per name, yields a well-formed registry. */
  lemma RegistryWellFormed(names: seq<string>, insts: seq<Tool>)
    requires |insts| == |names|
    ensures WellFormed(Registry(names, insts, ObjectsOf(names), GroupsOf(insts)))
  {
    GroupsOfLists(insts);
    var groups := GroupsOf(insts);
    forall g, m | g in groups && 0 <= m < |groups[g]|
      ensures groups[g][m] < |insts| && InGroup(insts[groups[g][m]], g)
    {
      assert groups[g][m] in groups[g];
    }
  }

  /** The registry the constructor's first loop builds from the requested names, or the error
      for the first name the lookup does not know. */
  function RegistryOf(extensions: map<string, Tool>, names: seq<string>): (r: Result<Registry, Error>)
    ensures r.Err? <==> exists k :: 0 <= k < |names| && Lookup(extensions, names[k]).None?
    ensures r.Err? ==> exists k :: 0 <= k < |names| && Lookup(extensions, names[k]).None? &&
                        r.error == UnknownTool(names[k]) &&
                        forall j :: 0 <= j < k ==> Lookup(extensions, names[j]).Some?
    ensures r.Ok? ==> WellFormed(r.value) && r.value.names == names
    ensures r.Ok? ==> |r.value.instances| == |names| &&
                      forall k :: 0 <= k < |names| ==> Lookup(extensions, names[k]) == Some(r.value.instances[k])
    ensures r.Ok? ==> r.value.objects == ObjectsOf(names) && r.value.groups == GroupsOf(r.value.instances)
  {
    var k := FirstUnknown(extensions, names);
    if k < |names| then Err(UnknownTool(names[k]))
    else
      var insts := ToolsOf(extensions, names);
      RegistryWellFormed(names, insts);
      Ok(Registry(names, insts, ObjectsOf(names), GroupsOf(insts)))
  }

  /** The first unknown name is the one after a run of known names, and there is none when
      the run covers every name. */
  lemma {:induction false} FirstUnknownAt(extensions: map<string, Tool>, names: seq<string>, k: nat)
    requires k <= |names| && (k < |names| ==> Lookup(extensions, names[k]).None?)
    requires forall j :: 0 <= j < k ==> Lookup(extensions, names[j]).Some?
    ensures FirstUnknown(extensions, names) == k
    decreases k
  {
    if k > 0 {
      FirstUnknownAt(extensions, names[1..], k - 1);
    }
  }

  /** The registry, or the error, once the constructor's loop has resolved the first `k` names
      and either stopped at the `k`-th or reached the end. */
  lemma RegistryOfPrefix(extensions: map<string, Tool>, names: seq<string>, k: nat, insts: seq<Tool>)
    requires k <= |names| && (k < |names| ==> Lookup(extensions, names[k]).None?)
    requires |insts| == k && Resolves(extensions, names, insts)
    ensures k < |names| ==> RegistryOf(extensions, names) == Err(UnknownTool(names[k]))
    ensures k == |names| ==> RegistryOf(extensions, names) == Ok(Registry(names, insts, ObjectsOf(names), GroupsOf(insts)))
  {
    FirstUnknownAt(extensions, names, k);
    if k == |names| {
      assert insts == ToolsOf(extensions, names);
    }
  }

  /** The first `|insts|` names resolve, in order, to the instances `insts`. */
  predicate Resolves(extensions: map<string, Tool>, names: seq<string>, insts: seq<Tool>) {
    |insts| <= |names| && forall j :: 0 <= j < |insts| ==> Lookup(extensions, names[j]) == Some(insts[j])
  }

  lemma ResolvesNext(extensions: map<string, Tool>, names: seq<string>, insts: seq<Tool>, t: Tool)
    requires Resolves(extensions, names, insts) && |insts| < |names|
    requires Lookup(extensions, names[|insts|]) == Some(t)
    ensures Resolves(extensions, names, insts + [t])
  {
    var next := insts + [t];
    forall j | 0 <= j < |next| ensures Lookup(extensions, names[j]) == Some(next[j]) {
      if j < |insts| {
        assert next[j] == insts[j];
      }
    }
  }

  lemma ObjectsOfNext(names: seq<string>, k: nat)
    requires k < |names|
    ensures ObjectsOf(names[..k + 1]) == ObjectsOf(names[..k])[names[k] := k]
  {
    assert names[..k + 1][..k] == names[..k];
  }

  lemma GroupsOfNext(insts: seq<Tool>, t: Tool)
    ensures GroupsOf(insts + [t]) ==
              if t.Group().Some? && t.Group().value != "" then
                GroupsOf(insts)[t.Group().value := (if t.Group().value in GroupsOf(insts) then GroupsOf(insts)[t.Group().value] else []) + [|insts|]]
              else GroupsOf(insts)
  {
    assert (insts + [t])[..|insts|] == insts;
  }

  /** Add instance `k` to its group's list, creating the list on first use, when its group is
      truthy. */
  method Enlist(groups: map<string, seq<nat>>, t: Tool, k: nat) returns (r: map<string, seq<nat>>)
    ensures r == if t.Group().Some? && t.Group().value != "" then
                   groups[t.Group().value := (if t.Group().value in groups then groups[t.Group().value] else []) + [k]]
                 else groups
  {
    r := groups;
    var g := t.Group();
    if g.Some? && g.value != "" {
      var key := g.value;
      if key !in r {
        r := r[key := []];
      }
      r := r[key := r[key] + [k]];
    }
  }

  /** The constructor's first loop: look each requested name up, register a fresh instance
      under it and add the instance to its group's list when it has a group. */
  method BuildRegistry(extensions: map<string, Tool>, names: seq<string>) returns (r: Result<Registry, Error>)
    ensures r == RegistryOf(extensions, names)
  {
    var insts: seq<Tool> := [];
    var objects: map<string, nat> := map[];
    var groups: map<string, seq<nat>> := map[];
    var k := 0;
    while k < |names|
      invariant 0 <= k <= |names|
      invariant |insts| == k && Resolves(extensions, names, insts)
      invariant objects == ObjectsOf(names[..k])
      invariant groups == GroupsOf(insts)
    {
      var tool := Lookup(extensions, names[k]);
      if tool.None? {
        RegistryOfPrefix(extensions, names, k, insts);
        return Err(UnknownTool(names[k]));
      }
      ResolvesNext(extensions, names, insts, tool.value);
      ObjectsOfNext(names, k);
      GroupsOfNext(insts, tool.value);
      groups := Enlist(groups, tool.value, k);
      insts := insts + [tool.value];
      objects := objects[names[k] := k];
      k := k + 1;
    }
    assert names[..k] == names;
    RegistryOfPrefix(extensions, names, k, insts);
    r := Ok(Registry(names, insts, objects, groups));
  }

  /** The target element and every instance's binding, taken together. */
  datatype State = State(doc: Doc, bindings: seq<Binding>)

  /** A state reached by a sequence of steps, and whether the sequence ran to its end or threw
      (an unbound instance has neither `target` nor `button`, so touching them throws). */
  datatype Outcome = Outcome(state: State, ok: bool)

  /** `tool.setState(target)` followed by `tool.button.classList.add('active')`, for instance
      `i`. An unbound style tool throws when `getState` reads its own target; an unbound heading
      or colour tool writes the shared target and then throws on its missing button. */
  function SetStep(t: Tool, i: nat, s: State): (o: Outcome)
    requires i < |s.bindings|
    ensures |o.state.bindings| == |s.bindings|
    ensures o.ok <==> s.bindings[i].bound
    ensures forall j :: 0 <= j < |s.bindings| && j != i ==> o.state.bindings[j] == s.bindings[j]
    ensures o.state.bindings[i].bound == s.bindings[i].bound
    ensures o.ok ==> o.state.bindings[i].active && o.state.bindings[i].value == s.bindings[i].value
    ensures o.ok || !t.StyleTool? ==> o.state.doc == SetDoc(t, s.bindings[i].value, s.doc)
    ensures !o.ok ==> o.state.bindings == s.bindings
    ensures !o.ok && t.StyleTool? ==> o.state == s
  {
    var b := s.bindings[i];
    if b.bound then Outcome(State(SetDoc(t, b.value, s.doc), s.bindings[i := AfterSet(t, b).(active := true)]), true)
    else if t.StyleTool? then Outcome(s, false)
    else Outcome(State(SetDoc(t, b.value, s.doc), s.bindings), false)
  }

  /** `tool.resetState(target)` followed by `tool.button.classList.remove('active')`, for
      instance `i`; an unbound colour tool forgets its value before it throws. It only ever
      removes `dataset` entries. */
  function ResetStep(t: Tool, i: nat, s: State): (o: Outcome)
    requires i < |s.bindings|
    ensures |o.state.bindings| == |s.bindings|
    ensures o.ok <==> s.bindings[i].bound
    ensures forall j :: 0 <= j < |s.bindings| && j != i ==> o.state.bindings[j] == s.bindings[j]
    ensures o.state.bindings[i].bound == s.bindings[i].bound
    ensures o.ok || !s.bindings[i].active ==> !o.state.bindings[i].active
    ensures o.ok || !t.StyleTool? ==> o.state.doc == ResetDoc(t, s.doc)
    ensures !o.ok && t.StyleTool? ==> o.state == s
    ensures t.ColorTool? ==> o.state.bindings[i].value == Null
    ensures !t.ColorTool? ==> o.state.bindings[i].value == s.bindings[i].value
    ensures o.state.doc.dataset.Keys <= s.doc.dataset.Keys
    ensures o.ok && t.HeadingTool? ==> t.tag !in o.state.doc.dataset
  {
    var b := s.bindings[i];
    if b.bound then Outcome(State(ResetDoc(t, s.doc), s.bindings[i := AfterReset(t, b).(active := false)]), true)
    else if t.StyleTool? then Outcome(s, false)
    else Outcome(State(ResetDoc(t, s.doc), s.bindings[i := if t.ColorTool? then b.(value := Null) else b]), false)
  }

  /** What an entry of the value handed to `setTools` asks for: `tool in value && value[tool]`. */
  predicate Wanted(value: Aggregate, n: string) {
    n in value && Truthy(value[n])
  }

  /** One round of `setTools`: set the `k`-th registered name's tool when its entry is
      truthy, reset it otherwise. */
  function SetToolStep(reg: Registry, value: Aggregate, k: nat, s: State): (o: Outcome)
    requires WellFormed(reg) && |s.bindings| == |reg.instances| && k < |reg.names|
    ensures |o.state.bindings| == |reg.instances|
    ensures o.ok <==> s.bindings[reg.objects[reg.names[k]]].bound
    ensures o.ok ==> o.state.bindings[reg.objects[reg.names[k]]].active == Wanted(value, reg.names[k])
    ensures forall j :: 0 <= j < |s.bindings| ==> o.state.bindings[j].bound == s.bindings[j].bound
    ensures forall j :: 0 <= j < |s.bindings| && j != reg.objects[reg.names[k]] ==> o.state.bindings[j] == s.bindings[j]
    ensures var i := reg.objects[reg.names[k]];
            o.ok ==> o.state.doc == if Wanted(value, reg.names[k]) then SetDoc(reg.instances[i], s.bindings[i].value, s.doc)
                                    else ResetDoc(reg.instances[i], s.doc)
  {
    var i := reg.objects[reg.names[k]];
    if Wanted(value, reg.names[k]) then SetStep(reg.instances[i], i, s) else ResetStep(reg.instances[i], i, s)
  }

  /** `setTools(value)` from the `k`-th registered name on: set every tool whose entry is truthy
      and reset every other one, stopping at the first that throws. */
  function SetToolsFrom(reg: Registry, value: Aggregate, k: nat, s: State): (o: Outcome)
    requires WellFormed(reg) && |s.bindings| == |reg.instances|
    ensures |o.state.bindings| == |reg.instances|
    decreases |reg.names| - k
  {
    if k >= |reg.names| then Outcome(s, true)
    else
      var o := SetToolStep(reg, value, k, s);
      if !o.ok then o else SetToolsFrom(reg, value, k + 1, o.state)
  }

  /** `setTools` throws exactly when a registered tool was never bound to a button. */
  lemma {:induction false} SetToolsThrows(reg: Registry, value: Aggregate, k: nat, s: State)
    requires WellFormed(reg) && |s.bindings| == |reg.instances|
    ensures SetToolsFrom(reg, value, k, s).ok <==>
              forall m :: k <= m < |reg.names| ==> s.bindings[reg.objects[reg.names[m]]].bound
    decreases |reg.names| - k
  {
    if k < |reg.names| {
      var step := SetToolStep(reg, value, k, s);
      var i := reg.objects[reg.names[k]];
      if step.ok {
        assert SetToolsFrom(reg, value, k, s) == SetToolsFrom(reg, value, k + 1, step.state);
        SetToolsThrows(reg, value, k + 1, step.state);
        BoundFrom(reg, k, s.bindings, step.state.bindings);
      } else {
        assert SetToolsFrom(reg, value, k, s) == step;
        assert !s.bindings[reg.objects[reg.names[k]]].bound;
      }
    }
  }

  /** Two binding lists that agree on which instances are bound agree on whether every
      registered name from the `k`-th on is bound, and the `k`-th is one of them. */
  lemma BoundFrom(reg: Registry, k: nat, a: seq<Binding>, b: seq<Binding>)
    requires WellFormed(reg) && |a| == |b| == |reg.instances| && k < |reg.names|
    requires forall j :: 0 <= j < |a| ==> a[j].bound == b[j].bound
    ensures (forall m :: k <= m < |reg.names| ==> a[reg.objects[reg.names[m]]].bound) <==>
            a[reg.objects[reg.names[k]]].bound && forall m :: k + 1 <= m < |reg.names| ==> b[reg.objects[reg.names[m]]].bound
  {
  }

  /** `setTools` binds and unbinds nothing, and leaves every instance no remaining registered
      name refers to as it was. */
  lemma {:induction false} SetToolsFrame(reg: Registry, value: Aggregate, k: nat, s: State)
    requires WellFormed(reg) && |s.bindings| == |reg.instances|
    ensures var o := SetToolsFrom(reg, value, k, s);
            (forall j :: 0 <= j < |s.bindings| ==> o.state.bindings[j].bound == s.bindings[j].bound)
            && (forall j :: 0 <= j < |s.bindings| && (forall m :: k <= m < |reg.names| ==> reg.objects[reg.names[m]] != j) ==>
                  o.state.bindings[j] == s.bindings[j])
    decreases |reg.names| - k
  {
    if k < |reg.names| {
      var step := SetToolStep(reg, value, k, s);
      if step.ok {
        assert SetToolsFrom(reg, value, k, s) == SetToolsFrom(reg, value, k + 1, step.state);
        SetToolsFrame(reg, value, k + 1, step.state);
      } else {
        assert SetToolsFrom(reg, value, k, s) == step;
      }
    }
  }

  /** Instance `j`'s flag agrees with the entry for the name it was registered under. */
  predicate Settled(reg: Registry, value: Aggregate, j: nat, bindings: seq<Binding>)
    requires WellFormed(reg) && |bindings| == |reg.instances| && j < |reg.instances|
  {
    bindings[j].active == Wanted(value, reg.names[j])
  }

  /** `setTools` leaves every flag that already agreed with its entry agreeing. */
  lemma {:induction false} SetToolsKeepsSettled(reg: Registry, value: Aggregate, k: nat, s: State, j: nat)
    requires WellFormed(reg) && |s.bindings| == |reg.instances| && j < |reg.instances|
    requires Settled(reg, value, j, s.bindings)
    ensures Settled(reg, value, j, SetToolsFrom(reg, value, k, s).state.bindings)
    decreases |reg.names| - k
  {
    if k < |reg.names| {
      var step := SetToolStep(reg, value, k, s);
      if step.ok {
        assert SetToolsFrom(reg, value, k, s) == SetToolsFrom(reg, value, k + 1, step.state);
        if j != reg.objects[reg.names[k]] {
          assert step.state.bindings[j] == s.bindings[j];
        }
        SetToolsKeepsSettled(reg, value, k + 1, step.state, j);
      } else {
        assert SetToolsFrom(reg, value, k, s) == step;
      }
    }
  }

  /** When `setTools` runs to its end it has raised the flag of exactly the registered tools
      whose entry is truthy and lowered every other one. */
  lemma {:induction false} SetToolsFlags(reg: Registry, value: Aggregate, k: nat, s: State)
    requires WellFormed(reg) && |s.bindings| == |reg.instances|
    ensures var o := SetToolsFrom(reg, value, k, s);
            o.ok ==> forall m :: k <= m < |reg.names| ==>
                       o.state.bindings[reg.objects[reg.names[m]]].active == Wanted(value, reg.names[m])
    decreases |reg.names| - k
  {
    if k < |reg.names| {
      var i := reg.objects[reg.names[k]];
      var step := SetToolStep(reg, value, k, s);
      if step.ok {
        var o := SetToolsFrom(reg, value, k + 1, step.state);
        assert SetToolsFrom(reg, value, k, s) == o;
        SetToolsFlags(reg, value, k + 1, step.state);
        SetToolsKeepsSettled(reg, value, k + 1, step.state, i);
        forall m | k <= m < |reg.names| && o.ok
          ensures o.state.bindings[reg.objects[reg.names[m]]].active == Wanted(value, reg.names[m])
        {
          if m == k { assert Settled(reg, value, i, o.state.bindings); }
        }
      }
    }
  }

  /** `setTools` sets and resets the tools in registration order, and a heading's
      `resetState` clears `fontSize` whatever heading set it. So when the last registered tool
      is a heading left out of the value, `fontSize` ends empty, even when an earlier heading
      was set (whose flag `SetToolsFlags` shows raised). */
  lemma {:induction false} LastHeadingClearsFontSize(reg: Registry, value: Aggregate, k: nat, s: State)
    requires WellFormed(reg) && |s.bindings| == |reg.instances| && k < |reg.names|
    requires SetToolsFrom(reg, value, k, s).ok
    requires reg.instances[reg.objects[reg.names[|reg.names| - 1]]].HeadingTool?
    requires !Wanted(value, reg.names[|reg.names| - 1])
    ensures SetToolsFrom(reg, value, k, s).state.doc.Style("fontSize") == ""
    decreases |reg.names| - k
  {
    var step := SetToolStep(reg, value, k, s);
    assert SetToolsFrom(reg, value, k, s) == if step.ok then SetToolsFrom(reg, value, k + 1, step.state) else step;
    if k + 1 < |reg.names| {
      LastHeadingClearsFontSize(reg, value, k + 1, step.state);
    } else {
      var i := reg.objects[reg.names[k]];
      assert step.state.doc == ResetDoc(reg.instances[i], s.doc);
    }
  }

  /** The members `updateGroup` hands to `execute`: `this._toolGroups[tool.group]`, where a
      `null` group is looked up under the key `"null"`, and nothing when the key is absent. */
  function GroupMembers(reg: Registry, t: Tool): (r: seq<nat>)
    requires WellFormed(reg)
    ensures forall x :: 0 <= x < |r| ==> r[x] < |reg.instances|
  {
    var key := if t.Group().None? then "null" else t.Group().value;
    if key in reg.groups then reg.groups[key] else []
  }

  /** The loop at the start of `execute` from the `m`-th member on: reset every member other
      than instance `i` itself and clear its flag, stopping at the first that throws. */
  function ResetOthers(insts: seq<Tool>, members: seq<nat>, m: nat, i: nat, s: State): (o: Outcome)
    requires |s.bindings| == |insts|
    requires forall x :: 0 <= x < |members| ==> members[x] < |insts|
    ensures |o.state.bindings| == |insts|
    decreases |members| - m
  {
    if m >= |members| then Outcome(s, true)
    else if members[m] == i then ResetOthers(insts, members, m + 1, i, s)
    else
      var o := ResetStep(insts[members[m]], members[m], s);
      if !o.ok then o else ResetOthers(insts, members, m + 1, i, o.state)
  }

  /** Resetting the siblings throws exactly when a sibling was never bound. */
  lemma {:induction false} ResetOthersThrows(insts: seq<Tool>, members: seq<nat>, m: nat, i: nat, s: State)
    requires |s.bindings| == |insts|
    requires forall x :: 0 <= x < |members| ==> members[x] < |insts|
    ensures ResetOthers(insts, members, m, i, s).ok <==>
              forall x :: m <= x < |members| && members[x] != i ==> s.bindings[members[x]].bound
    decreases |members| - m
  {
    if m < |members| {
      if members[m] == i {
        assert ResetOthers(insts, members, m, i, s) == ResetOthers(insts, members, m + 1, i, s);
        ResetOthersThrows(insts, members, m + 1, i, s);
        SiblingsBound(members, m, i, s.bindings, s.bindings);
      } else {
        var step := ResetStep(insts[members[m]], members[m], s);
        if step.ok {
          assert ResetOthers(insts, members, m, i, s) == ResetOthers(insts, members, m + 1, i, step.state);
          ResetOthersThrows(insts, members, m + 1, i, step.state);
          SiblingsBound(members, m, i, s.bindings, step.state.bindings);
        } else {
          assert ResetOthers(insts, members, m, i, s) == step;
        }
      }
    }
  }

  /** Two binding lists that agree on which instances are bound agree on whether every
      sibling from the `m`-th member on is bound. */
  lemma SiblingsBound(members: seq<nat>, m: nat, i: nat, a: seq<Binding>, b: seq<Binding>)
    requires |a| == |b| && m < |members| && forall x :: 0 <= x < |members| ==> members[x] < |a|
    requires forall j :: 0 <= j < |a| ==> a[j].bound == b[j].bound
    ensures (forall x :: m <= x < |members| && members[x] != i ==> a[members[x]].bound) <==>
            (members[m] == i || a[members[m]].bound) &&
            forall x :: m + 1 <= x < |members| && members[x] != i ==> b[members[x]].bound
  {
  }

  /** Resetting the siblings never raises a flag, binds or unbinds nothing, touches neither
      instance `i` nor any non-member, and never adds a `dataset` entry. */
  lemma {:induction false} ResetOthersFrame(insts: seq<Tool>, members: seq<nat>, m: nat, i: nat, s: State)
    requires |s.bindings| == |insts|
    requires forall x :: 0 <= x < |members| ==> members[x] < |insts|
    ensures var o := ResetOthers(insts, members, m, i, s);
            (forall j :: 0 <= j < |insts| && !s.bindings[j].active ==> !o.state.bindings[j].active)
            && (forall j :: 0 <= j < |insts| ==> o.state.bindings[j].bound == s.bindings[j].bound)
            && (forall j :: 0 <= j < |insts| && (j == i || forall x :: m <= x < |members| ==> members[x] != j) ==>
                  o.state.bindings[j] == s.bindings[j])
            && o.state.doc.dataset.Keys <= s.doc.dataset.Keys
    decreases |members| - m
  {
    if m < |members| {
      if members[m] == i {
        assert ResetOthers(insts, members, m, i, s) == ResetOthers(insts, members, m + 1, i, s);
        ResetOthersFrame(insts, members, m + 1, i, s);
      } else {
        var step := ResetStep(insts[members[m]], members[m], s);
        if step.ok {
          assert ResetOthers(insts, members, m, i, s) == ResetOthers(insts, members, m + 1, i, step.state);
          ResetOthersFrame(insts, members, m + 1, i, step.state);
        } else {
          assert ResetOthers(insts, members, m, i, s) == step;
        }
      }
    }
  }

  /** What resetting the siblings achieves when it runs to its end: every sibling's flag is
      down and no heading sibling keeps its marker. */
  lemma {:induction false} ResetOthersClears(insts: seq<Tool>, members: seq<nat>, m: nat, i: nat, s: State)
    requires |s.bindings| == |insts|
    requires forall x :: 0 <= x < |members| ==> members[x] < |insts|
    ensures var o := ResetOthers(insts, members, m, i, s);
            o.ok ==> forall x :: m <= x < |members| && members[x] != i ==> Cleared(insts, members[x], o.state)
    decreases |members| - m
  {
    if m < |members| {
      if members[m] == i {
        assert ResetOthers(insts, members, m, i, s) == ResetOthers(insts, members, m + 1, i, s);
        ResetOthersClears(insts, members, m + 1, i, s);
      } else {
        var step := ResetStep(insts[members[m]], members[m], s);
        if step.ok {
          var o := ResetOthers(insts, members, m + 1, i, step.state);
          assert ResetOthers(insts, members, m, i, s) == o;
          ResetOthersClears(insts, members, m + 1, i, step.state);
          ResetOthersFrame(insts, members, m + 1, i, step.state);
          StaysCleared(insts, members[m], step.state, o.state);
        }
      }
    }
  }

  /** Resetting the siblings adds no occurrence of any token to what a style tool reads. */
  lemma {:induction false} ResetOthersShrinks(insts: seq<Tool>, members: seq<nat>, m: nat, i: nat, s: State, t: Tool)
    requires |s.bindings| == |insts| && t.StyleTool?
    requires forall x :: 0 <= x < |members| ==> members[x] < |insts|
    ensures multiset(CurrentTokens(t, ResetOthers(insts, members, m, i, s).state.doc)) <= multiset(CurrentTokens(t, s.doc))
    decreases |members| - m
  {
    if m < |members| {
      if members[m] == i {
        assert ResetOthers(insts, members, m, i, s) == ResetOthers(insts, members, m + 1, i, s);
        ResetOthersShrinks(insts, members, m + 1, i, s, t);
      } else {
        var u := insts[members[m]];
        var step := ResetStep(u, members[m], s);
        ResetShrinksTokens(u, t, s.doc);
        assert multiset(CurrentTokens(t, step.state.doc)) <= multiset(CurrentTokens(t, s.doc));
        if step.ok {
          assert ResetOthers(insts, members, m, i, s) == ResetOthers(insts, members, m + 1, i, step.state);
          ResetOthersShrinks(insts, members, m + 1, i, step.state, t);
        } else {
          assert ResetOthers(insts, members, m, i, s) == step;
        }
      }
    }
  }

  /** Instance `j` is reset: its flag is down and, for a heading tool, its marker is gone. */
  predicate Cleared(insts: seq<Tool>, j: nat, s: State)
    requires j < |insts| && |s.bindings| == |insts|
  {
    !s.bindings[j].active && (insts[j].HeadingTool? ==> insts[j].tag !in s.doc.dataset)
  }

  /** A later state that raises no flag and adds no `dataset` entry keeps a reset instance
      reset. */
  lemma StaysCleared(insts: seq<Tool>, j: nat, before: State, after: State)
    requires j < |insts| && |before.bindings| == |after.bindings| == |insts|
    requires Cleared(insts, j, before)
    requires forall k :: 0 <= k < |insts| && !before.bindings[k].active ==> !after.bindings[k].active
    requires after.doc.dataset.Keys <= before.doc.dataset.Keys
    ensures Cleared(insts, j, after)
  {
  }

  /** `execute(target, groups)` on instance `i`. A colour tool only mirrors whether its
      `dataset` entry is non-empty onto its flag, and throws on its missing button when
      unbound; every other tool first resets its group's other members and then toggles on
      its own flag. */
  function ExecuteSpec(reg: Registry, i: nat, s: State): (o: Outcome)
    requires WellFormed(reg) && i < |reg.instances| && |s.bindings| == |reg.instances|
    ensures |o.state.bindings| == |reg.instances|
    ensures reg.instances[i].ColorTool? ==>
              (o.ok <==> s.bindings[i].bound) && o.state.doc == s.doc &&
              (o.ok ==> o.state.bindings == s.bindings[i := s.bindings[i].(active := Truthy(s.doc.Data(reg.instances[i].attribute)))]) &&
              (!o.ok ==> o.state == s)
  {
    var t := reg.instances[i];
    if t.ColorTool? then
      if !s.bindings[i].bound then Outcome(s, false)
      else Outcome(State(s.doc, s.bindings[i := s.bindings[i].(active := Truthy(s.doc.Data(t.attribute)))]), true)
    else
      var o := ResetOthers(reg.instances, GroupMembers(reg, t), 0, i, s);
      if !o.ok then o
      else if o.state.bindings[i].active then ResetStep(t, i, o.state)
      else SetStep(t, i, o.state)
  }

  /** After `execute` on a bound style or heading tool every other member of its group is
      inactive and its own flag is flipped, so at most one member of the group is active;
      instances outside the group keep their bindings; it throws exactly when a sibling was
      never bound. */
  lemma ExecuteExclusive(reg: Registry, i: nat, s: State)
    requires WellFormed(reg) && i < |reg.instances| && |s.bindings| == |reg.instances|
    requires s.bindings[i].bound && !reg.instances[i].ColorTool?
    ensures var o := ExecuteSpec(reg, i, s);
            var members := GroupMembers(reg, reg.instances[i]);
            (o.ok <==> forall x :: 0 <= x < |members| && members[x] != i ==> s.bindings[members[x]].bound)
            && (o.ok ==> o.state.bindings[i].active == !s.bindings[i].active)
            && (o.ok ==> forall x :: 0 <= x < |members| && members[x] != i ==> !o.state.bindings[members[x]].active)
            && (o.ok ==> forall x, y ::
                  (0 <= x < |members| && 0 <= y < |members| &&
                   o.state.bindings[members[x]].active && o.state.bindings[members[y]].active) ==> members[x] == members[y])
            && (forall j :: 0 <= j < |s.bindings| && j != i && (forall x :: 0 <= x < |members| ==> members[x] != j) ==>
                  o.state.bindings[j] == s.bindings[j])
  {
    var members := GroupMembers(reg, reg.instances[i]);
    ResetOthersThrows(reg.instances, members, 0, i, s);
    ResetOthersFrame(reg.instances, members, 0, i, s);
    ResetOthersClears(reg.instances, members, 0, i, s);
  }

  /** Clicking a heading tool leaves `fontSize` at the clicked level's size with its marker set
      when its flag was down, and clears both when it was up, whatever its siblings did; after
      turning it on, no heading sibling with another tag keeps its marker. */
  lemma HeadingToggle(reg: Registry, i: nat, s: State)
    requires WellFormed(reg) && i < |reg.instances| && |s.bindings| == |reg.instances|
    requires s.bindings[i].bound && reg.instances[i].HeadingTool?
    ensures var o := ExecuteSpec(reg, i, s);
            var t := reg.instances[i];
            var members := GroupMembers(reg, t);
            (o.ok && !s.bindings[i].active ==>
               o.state.doc.Style("fontSize") == t.fontSize && o.state.doc.Data(t.tag) == Str(t.tag))
            && (o.ok && s.bindings[i].active ==> o.state.doc.Style("fontSize") == "" && t.tag !in o.state.doc.dataset)
            && (o.ok ==> forall x ::
                  (0 <= x < |members| && members[x] != i && reg.instances[members[x]].HeadingTool? &&
                   reg.instances[members[x]].tag != t.tag) ==> reg.instances[members[x]].tag !in o.state.doc.dataset)
  {
    var members := GroupMembers(reg, reg.instances[i]);
    ResetOthersThrows(reg.instances, members, 0, i, s);
    ResetOthersFrame(reg.instances, members, 0, i, s);
    ResetOthersClears(reg.instances, members, 0, i, s);
  }

  /** Clicking a style tool whose flag is down, when its tokens are space-free and one of
      them is not empty text, leaves it detecting itself, whatever its siblings' resets did. */
  lemma StyleClickDetected(reg: Registry, i: nat, s: State)
    requires WellFormed(reg) && i < |reg.instances| && |s.bindings| == |reg.instances|
    requires s.bindings[i].bound && !s.bindings[i].active
    requires reg.instances[i].StyleTool? && SpaceFree(reg.instances[i].tokens)
    requires exists k :: 0 <= k < |reg.instances[i].tokens| && reg.instances[i].tokens[k] != ""
    ensures var o := ExecuteSpec(reg, i, s);
            o.ok ==> IsActive(reg.instances[i], StateOf(reg.instances[i], o.state.doc))
  {
    var t := reg.instances[i];
    var members := GroupMembers(reg, t);
    var mid := ResetOthers(reg.instances, members, 0, i, s);
    ResetOthersFrame(reg.instances, members, 0, i, s);
    assert mid.state.bindings[i] == s.bindings[i];
    if mid.ok {
      assert ExecuteSpec(reg, i, s) == SetStep(t, i, mid.state);
      StyleSetDetected(t, s.bindings[i].value, mid.state.doc);
    }
  }

  /** Clicking a style tool whose flag is up leaves it no longer detecting itself, when none
      of its tokens occurred twice in its property before the click: the siblings' resets
      only remove tokens, and its own reset removes one occurrence of each of its tokens. */
  lemma StyleClickUndetected(reg: Registry, i: nat, s: State)
    requires WellFormed(reg) && i < |reg.instances| && |s.bindings| == |reg.instances|
    requires s.bindings[i].bound && s.bindings[i].active && reg.instances[i].StyleTool?
    requires forall x :: x in reg.instances[i].tokens ==> multiset(CurrentTokens(reg.instances[i], s.doc))[x] <= 1
    ensures var o := ExecuteSpec(reg, i, s);
            o.ok ==> !IsActive(reg.instances[i], StateOf(reg.instances[i], o.state.doc))
  {
    var t := reg.instances[i];
    var members := GroupMembers(reg, t);
    var mid := ResetOthers(reg.instances, members, 0, i, s);
    ResetOthersFrame(reg.instances, members, 0, i, s);
    assert mid.state.bindings[i] == s.bindings[i];
    if mid.ok {
      assert ExecuteSpec(reg, i, s) == ResetStep(t, i, mid.state);
      ResetOthersShrinks(reg.instances, members, 0, i, s, t);
      forall x | x in t.tokens ensures multiset(CurrentTokens(t, mid.state.doc))[x] <= 1 {
        assert multiset(CurrentTokens(t, mid.state.doc))[x] <= multiset(CurrentTokens(t, s.doc))[x];
      }
      StyleResetUndetected(t, mid.state.doc);
    }
  }

  /** The state recorded for registered name `n`: what its instance's `getState` reads. */
  function StateFor(reg: Registry, d: Doc, n: string): Value
    requires WellFormed(reg) && n in reg.objects
  {
    StateOf(reg.instances[reg.objects[n]], d)
  }

  /** The entries `getState` collects for the names in `names`. */
  function Collect(reg: Registry, d: Doc, names: seq<string>): Aggregate
    requires WellFormed(reg) && forall n :: n in names ==> n in reg.objects
  {
    map n | n in names && Truthy(StateFor(reg, d, n)) :: StateFor(reg, d, n)
  }

  /** The controller's `getState()`: every registered name whose tool detects a truthy value,
      mapped to that value; it throws (`None`) when a registered tool was never bound, since
      such a tool has no target to read. */
  function AggregateOf(reg: Registry, s: State): (r: Option<Aggregate>)
    requires WellFormed(reg) && |s.bindings| == |reg.instances|
    ensures r.Some? <==> forall k :: 0 <= k < |reg.names| ==> s.bindings[reg.objects[reg.names[k]]].bound
    ensures r.Some? ==> forall n :: n in r.value <==> n in reg.names && Truthy(StateOf(reg.instances[reg.objects[n]], s.doc))
    ensures r.Some? ==> forall n :: n in r.value ==> r.value[n] == StateOf(reg.instances[reg.objects[n]], s.doc)
  {
    assert forall n :: n in reg.names ==> n in reg.objects;
    if forall k :: 0 <= k < |reg.names| ==> s.bindings[reg.objects[reg.names[k]]].bound
    then Some(Collect(reg, s.doc, reg.names))
    else None
  }

  lemma CollectStep(reg: Registry, d: Doc, p: seq<string>, n: string)
    requires WellFormed(reg) && n in reg.objects && forall x :: x in p ==> x in reg.objects
    ensures forall x :: x in p + [n] ==> x in reg.objects
    ensures Collect(reg, d, p + [n]) ==
              if Truthy(StateFor(reg, d, n)) then Collect(reg, d, p)[n := StateFor(reg, d, n)] else Collect(reg, d, p)
  {
    assert forall x :: x in p + [n] <==> x in p || x == n;
  }

  /** Registered tools that share a style property, such as the underline and strike-through
      tools, are reported together or not at all, with the same token list. */
  lemma AggregateSharesProperty(reg: Registry, s: State, n1: string, n2: string)
    requires WellFormed(reg) && |s.bindings| == |reg.instances|
    requires n1 in reg.objects && n2 in reg.objects
    requires reg.instances[reg.objects[n1]].StyleTool? && reg.instances[reg.objects[n2]].StyleTool?
    requires reg.instances[reg.objects[n1]].attribute == reg.instances[reg.objects[n2]].attribute
    requires AggregateOf(reg, s).Some?
    ensures n1 in AggregateOf(reg, s).value <==> n2 in AggregateOf(reg, s).value
    ensures n1 in AggregateOf(reg, s).value ==> AggregateOf(reg, s).value[n1] == AggregateOf(reg, s).value[n2]
  {
    var a := AggregateOf(reg, s).value;
    assert reg.names[reg.objects[n1]] == n1 && reg.names[reg.objects[n2]] == n2;
    SharedPropertySameState(reg.instances[reg.objects[n1]], reg.instances[reg.objects[n2]], s.doc);
  }

  /** Feeding `getState()` back to `setTools` does not restore the active set when style tools
      share a non-empty property: both are reported, so the restore raises both flags (and
      sets both tools), whichever of them was active. */
  lemma SetToolsRaisesSharers(reg: Registry, s: State, n1: string, n2: string)
    requires WellFormed(reg) && |s.bindings| == |reg.instances|
    requires n1 in reg.objects && n2 in reg.objects
    requires reg.instances[reg.objects[n1]].StyleTool? && reg.instances[reg.objects[n2]].StyleTool?
    requires reg.instances[reg.objects[n1]].attribute == reg.instances[reg.objects[n2]].attribute
    requires AggregateOf(reg, s).Some?
    requires s.doc.Style(reg.instances[reg.objects[n1]].attribute) != ""
    ensures var o := SetToolsFrom(reg, AggregateOf(reg, s).value, 0, s);
            o.ok && o.state.bindings[reg.objects[n1]].active && o.state.bindings[reg.objects[n2]].active
  {
    var a := AggregateOf(reg, s).value;
    var i1, i2 := reg.objects[n1], reg.objects[n2];
    assert reg.names[i1] == n1 && reg.names[i2] == n2;
    assert StateOf(reg.instances[i1], s.doc).Tokens?;
    assert n1 in a;
    AggregateSharesProperty(reg, s, n1, n2);
    SetToolsThrows(reg, a, 0, s);
    SetToolsFlags(reg, a, 0, s);
  }

  /** The toolbar with just the underline and strike-through tools. */
  const DecorationToolbar: Registry :=
    Registry(["UNDERLINE", "STRIKETHROUGH"], [Underline, Strikethrough],
             map["UNDERLINE" := 0, "STRIKETHROUGH" := 1], map[])

  /** `DecorationToolbar` is the registry the constructor builds for those two names. */
  lemma DecorationToolbarBuilt()
    ensures RegistryOf(map[], ["UNDERLINE", "STRIKETHROUGH"]) == Ok(DecorationToolbar)
  {
    var names := ["UNDERLINE", "STRIKETHROUGH"];
    assert Lookup(map[], names[0]) == Some(Underline);
    assert Lookup(map[], names[1]) == Some(Strikethrough);
    assert FirstUnknown(map[], names) == 2;
    assert ToolsOf(map[], names) == [Underline, Strikethrough];
    assert ObjectsOf(names) == map["UNDERLINE" := 0, "STRIKETHROUGH" := 1];
    assert GroupsOf([Underline]) == map[];
    assert GroupsOf([Underline, Strikethrough]) == map[];
  }

  /** `DecorationToolbar` has the shape every constructed registry has. */
  lemma DecorationToolbarWellFormed()
    ensures WellFormed(DecorationToolbar)
  {
    DecorationToolbarBuilt();
  }

  /** On `textDecoration: underline` the strike-through tool does not detect itself. */
  lemma StrikethroughIdle(d: Doc)
    requires d.Style("textDecoration") == "underline"
    ensures !IsActive(Strikethrough, StateOf(Strikethrough, d))
  {
    var text := d.Style("textDecoration");
    SplitNoSpace(text);
    assert StateOf(Strikethrough, d) == Tokens([text]);
  }

  /** With only the underline tool active on `textDecoration: underline` (where, by
      `StrikethroughIdle`, the strike-through tool does not detect itself),
      `setTools(getState())` raises the strike-through tool's flag. */
  lemma RestoreRaisesStrikethrough(d: Doc)
    requires d.Style("textDecoration") == "underline"
    ensures WellFormed(DecorationToolbar)
    ensures var s := State(d, [Binding(true, true, EmptyObject), Binding(true, false, EmptyObject)]);
            AggregateOf(DecorationToolbar, s).Some? &&
            SetToolsFrom(DecorationToolbar, AggregateOf(DecorationToolbar, s).value, 0, s).state.bindings[1].active
  {
    DecorationToolbarWellFormed();
    var s := State(d, [Binding(true, true, EmptyObject), Binding(true, false, EmptyObject)]);
    SetToolsRaisesSharers(DecorationToolbar, s, "UNDERLINE", "STRIKETHROUGH");
  }

  /** `value[tool]` as the constructor's activity test reads it: `undefined` when absent. */
  function ValueAt(value: Aggregate, n: string): Value {
    if n in value then value[n] else Undefined
  }

  /** The value the constructor hands to `initialize`: `{}` when the name is absent. */
  function Initial(value: Aggregate, n: string): Value {
    if n in value then value[n] else EmptyObject
  }

  /** The bindings of freshly cloned instances: none is bound yet. */
  function Unbound(count: nat): (r: seq<Binding>)
    ensures |r| == count && forall j :: 0 <= j < count ==> !r[j].bound
  {
    seq(count, j => Binding(false, false, Undefined))
  }

  /** The state the constructor's button loop has reached and the error it threw, if any. */
  datatype Built = Built(state: State, error: Option<Error>)

  /** One round of the constructor's button loop for a button naming `n`: resolve the
      instance, `initialize` it with the button (whose flag starts down) and its initial
      value, fail for a colour tool without Pickr, then `setState` and raise the flag when the
      tool is active for `value[n]`. */
  function ButtonStep(reg: Registry, value: Aggregate, pickr: bool, n: string, s: State): (r: Built)
    requires WellFormed(reg) && |s.bindings| == |reg.instances|
    ensures |r.state.bindings| == |reg.instances|
    ensures r.error.None? <==> n in reg.objects && (pickr || !reg.instances[reg.objects[n]].ColorTool?)
    ensures r.error.None? ==>
              var i := reg.objects[n];
              r.state.bindings[i].bound && r.state.bindings[i].value == Initial(value, n) &&
              (r.state.bindings[i].active <==> IsActive(reg.instances[i], ValueAt(value, n)))
    ensures forall j :: 0 <= j < |s.bindings| && (n in reg.objects ==> reg.objects[n] != j) ==>
              r.state.bindings[j] == s.bindings[j]
    ensures r.error.None? ==>
              var i := reg.objects[n];
              r.state.doc == if IsActive(reg.instances[i], ValueAt(value, n)) then SetDoc(reg.instances[i], Initial(value, n), s.doc)
                             else s.doc
    ensures r.error.Some? ==> r.state.doc == s.doc
  {
    if n !in reg.objects then Built(s, Some(ButtonToolNotFound(n)))
    else
      var i := reg.objects[n];
      var t := reg.instances[i];
      var b := Binding(true, false, Initial(value, n));
      if t.ColorTool? && !pickr then Built(State(s.doc, s.bindings[i := b]), Some(PickrMissing))
      else if IsActive(t, ValueAt(value, n)) then
        Built(State(SetDoc(t, b.value, s.doc), s.bindings[i := AfterSet(t, b).(active := true)]), None)
      else Built(State(s.doc, s.bindings[i := b]), None)
  }

  /** A button whose style tool is active for its initial value leaves that tool's
      non-empty tokens showing in its property, next to those that were there before. */
  lemma ButtonShowsStyle(reg: Registry, value: Aggregate, pickr: bool, n: string, s: State)
    requires WellFormed(reg) && |s.bindings| == |reg.instances|
    requires ButtonStep(reg, value, pickr, n, s).error.None?
    requires var t := reg.instances[reg.objects[n]]; t.StyleTool? && SpaceFree(t.tokens)
    ensures var t := reg.instances[reg.objects[n]];
            var after := ButtonStep(reg, value, pickr, n, s).state.doc;
            IsActive(t, ValueAt(value, n)) ==>
              forall x :: x != "" ==> (x in CurrentTokens(t, after) <==> x in CurrentTokens(t, s.doc) || x in t.tokens)
  {
    var t := reg.instances[reg.objects[n]];
    if IsActive(t, ValueAt(value, n)) {
      StyleSetShows(t, Initial(value, n), s.doc);
    }
  }

  /** The constructor's button loop from the `k`-th button on. */
  function InitFrom(reg: Registry, value: Aggregate, pickr: bool, buttons: seq<string>, k: nat, s: State): (r: Built)
    requires WellFormed(reg) && |s.bindings| == |reg.instances|
    ensures |r.state.bindings| == |reg.instances|
    decreases |buttons| - k
  {
    if k >= |buttons| then Built(s, None)
    else
      var b := ButtonStep(reg, value, pickr, buttons[k], s);
      if b.error.Some? then b else InitFrom(reg, value, pickr, buttons, k + 1, b.state)
  }

  /** The button loop throws exactly when a button names no registered tool, or names a
      colour tool while Pickr is not loaded. */
  lemma {:induction false} InitThrows(reg: Registry, value: Aggregate, pickr: bool, buttons: seq<string>, k: nat, s: State)
    requires WellFormed(reg) && |s.bindings| == |reg.instances|
    ensures InitFrom(reg, value, pickr, buttons, k, s).error.None? <==>
              forall m :: k <= m < |buttons| ==>
                buttons[m] in reg.objects && (pickr || !reg.instances[reg.objects[buttons[m]]].ColorTool?)
    decreases |buttons| - k
  {
    if k < |buttons| {
      var step := ButtonStep(reg, value, pickr, buttons[k], s);
      if step.error.None? {
        assert InitFrom(reg, value, pickr, buttons, k, s) == InitFrom(reg, value, pickr, buttons, k + 1, step.state);
        InitThrows(reg, value, pickr, buttons, k + 1, step.state);
      } else {
        assert InitFrom(reg, value, pickr, buttons, k, s) == step;
      }
    }
  }

  /** The button loop leaves every instance no remaining button names as it was. */
  lemma {:induction false} InitFrame(reg: Registry, value: Aggregate, pickr: bool, buttons: seq<string>, k: nat, s: State)
    requires WellFormed(reg) && |s.bindings| == |reg.instances|
    ensures forall j ::
              (0 <= j < |s.bindings| &&
               forall m :: k <= m < |buttons| && buttons[m] in reg.objects ==> reg.objects[buttons[m]] != j) ==>
              InitFrom(reg, value, pickr, buttons, k, s).state.bindings[j] == s.bindings[j]
    decreases |buttons| - k
  {
    if k < |buttons| {
      var step := ButtonStep(reg, value, pickr, buttons[k], s);
      if step.error.None? {
        assert InitFrom(reg, value, pickr, buttons, k, s) == InitFrom(reg, value, pickr, buttons, k + 1, step.state);
        InitFrame(reg, value, pickr, buttons, k + 1, step.state);
      } else {
        assert InitFrom(reg, value, pickr, buttons, k, s) == step;
      }
    }
  }

  /** The binding a button's round of the loop gives the instance its name resolves to. */
  predicate Initialised(reg: Registry, value: Aggregate, n: string, bindings: seq<Binding>)
    requires WellFormed(reg) && |bindings| == |reg.instances| && n in reg.objects
  {
    var i := reg.objects[n];
    bindings[i].bound && bindings[i].value == Initial(value, n) &&
    (bindings[i].active <==> IsActive(reg.instances[i], ValueAt(value, n)))
  }

  /** When the button loop runs to its end, every tool with a button is bound to its initial
      value and is active exactly when `isActive(value[name])` holds. */
  lemma {:induction false} InitBinds(reg: Registry, value: Aggregate, pickr: bool, buttons: seq<string>, k: nat, s: State)
    requires WellFormed(reg) && |s.bindings| == |reg.instances|
    ensures var r := InitFrom(reg, value, pickr, buttons, k, s);
            r.error.None? ==> forall m :: k <= m < |buttons| ==>
              buttons[m] in reg.objects && Initialised(reg, value, buttons[m], r.state.bindings)
    decreases |buttons| - k
  {
    if k < |buttons| {
      var step := ButtonStep(reg, value, pickr, buttons[k], s);
      if step.error.None? {
        var r := InitFrom(reg, value, pickr, buttons, k + 1, step.state);
        assert InitFrom(reg, value, pickr, buttons, k, s) == r;
        InitBinds(reg, value, pickr, buttons, k + 1, step.state);
        if r.error.None? {
          InitFrame(reg, value, pickr, buttons, k + 1, step.state);
          BindsFrom(reg, value, buttons, k, step.state.bindings, r.state.bindings);
        }
      }
    }
  }

  /** The bindings the button loop leaves from the `k`-th button on: those the later rounds
      leave, and the one the `k`-th round gave unless a later button names the same tool. */
  lemma BindsFrom(reg: Registry, value: Aggregate, buttons: seq<string>, k: nat, step: seq<Binding>, last: seq<Binding>)
    requires WellFormed(reg) && |step| == |last| == |reg.instances| && k < |buttons|
    requires buttons[k] in reg.objects && Initialised(reg, value, buttons[k], step)
    requires forall m :: k + 1 <= m < |buttons| ==> buttons[m] in reg.objects && Initialised(reg, value, buttons[m], last)
    requires forall j ::
               (0 <= j < |step| && forall m :: k + 1 <= m < |buttons| && buttons[m] in reg.objects ==> reg.objects[buttons[m]] != j) ==>
               last[j] == step[j]
    ensures forall m :: k <= m < |buttons| ==> buttons[m] in reg.objects && Initialised(reg, value, buttons[m], last)
  {
    var n := buttons[k];
    var i := reg.objects[n];
    if exists m' :: k + 1 <= m' < |buttons| && buttons[m'] in reg.objects && reg.objects[buttons[m']] == i {
      var m' :| k + 1 <= m' < |buttons| && buttons[m'] in reg.objects && reg.objects[buttons[m']] == i;
      assert buttons[m'] == reg.names[i] == n;
    }
  }

  /** The deserialised initial value: `{}` for an empty input or a falsy parse, the parsed
      object otherwise; text JSON cannot parse makes the constructor throw. */
  function InitialValue(input: InputText): (r: Result<Aggregate, Error>)
    ensures r.Err? <==> input.Malformed?
    ensures r.Err? ==> r.error == MalformedInput
    ensures input == Blank || input == Serialized(None) ==> r == Ok(map[])
    ensures input.Serialized? && input.parsed.Some? ==> r == Ok(input.parsed.value)
  {
    match input
    case Blank => Ok(map[])
    case Malformed => Err(MalformedInput)
    case Serialized(p) => Ok(if p.Some? then p.value else map[])
  }

  /** The requested tool names: every built-in name when the argument is `null`. */
  function Requested(tools: Option<seq<string>>): seq<string> {
    if tools.None? then BuiltInNames else tools.value
  }

  /** A constructed controller's own part: the registry and every instance's binding. */
  datatype Live = Live(registry: Registry, bindings: seq<Binding>)

  /** What the constructor leaves on the target and whether it returns a controller or throws. */
  datatype Setup = Setup(doc: Doc, result: Result<Live, Error>)

  /** The `ToolbarWidget` constructor. `targetId` is the `target` argument, `found` says whether
      the target element it names was resolved, `buttons` holds each toolbar button's tool
      name in document order and `pickr` whether the colour picker library is loaded. */
  function SetUp(extensions: map<string, Tool>, tools: Option<seq<string>>, targetId: Option<string>, found: bool,
                 input: InputText, buttons: seq<string>, pickr: bool, d: Doc): (r: Setup)
    ensures targetId.None? ==> r == Setup(d, Err(MissingTarget))
    ensures targetId.Some? && !found ==> r == Setup(d, Err(UnresolvedTarget))
    ensures targetId.Some? && found && input.Malformed? ==> r == Setup(d, Err(MalformedInput))
    ensures targetId.Some? && found && !input.Malformed? && RegistryOf(extensions, Requested(tools)).Err? ==>
              r == Setup(d, Err(RegistryOf(extensions, Requested(tools)).error))
    ensures targetId.Some? && found && InitialValue(input).Ok? && RegistryOf(extensions, Requested(tools)).Ok? ==>
              r == Finish(RegistryOf(extensions, Requested(tools)).value, InitialValue(input).value, pickr, buttons, d)
    ensures r.result.Ok? ==>
              (targetId.Some? && found && InitialValue(input).Ok? &&
               RegistryOf(extensions, Requested(tools)) == Ok(r.result.value.registry) &&
               WellFormed(r.result.value.registry) &&
               |r.result.value.bindings| == |r.result.value.registry.instances|)
  {
    if targetId.None? then Setup(d, Err(MissingTarget))
    else if !found then Setup(d, Err(UnresolvedTarget))
    else match InitialValue(input)
      case Err(e) => Setup(d, Err(e))
      case Ok(value) =>
        match RegistryOf(extensions, Requested(tools))
        case Err(e) => Setup(d, Err(e))
        case Ok(reg) => Finish(reg, value, pickr, buttons, d)
  }

  /** The end of the constructor, once the registry is built: the button loop over freshly
      cloned, unbound instances. */
  function Finish(reg: Registry, value: Aggregate, pickr: bool, buttons: seq<string>, d: Doc): (r: Setup)
    requires WellFormed(reg)
    ensures r.result.Ok? ==> r.result.value.registry == reg && |r.result.value.bindings| == |reg.instances|
  {
    var b := InitFrom(reg, value, pickr, buttons, 0, State(d, Unbound(|reg.instances|)));
    if b.error.Some? then Setup(b.state.doc, Err(b.error.value))
    else Setup(b.state.doc, Ok(Live(reg, b.state.bindings)))
  }

  /** Once the registry is built, the constructor succeeds with every tool named by a button
      bound and active exactly when it is active for its initial value, and every other tool
      still unbound and inactive. */
  lemma FinishActivates(reg: Registry, value: Aggregate, pickr: bool, buttons: seq<string>, d: Doc)
    requires WellFormed(reg) && Finish(reg, value, pickr, buttons, d).result.Ok?
    ensures var live := Finish(reg, value, pickr, buttons, d).result.value;
            (forall m :: 0 <= m < |buttons| ==>
               buttons[m] in reg.objects && (pickr || !reg.instances[reg.objects[buttons[m]]].ColorTool?))
            && (forall m :: 0 <= m < |buttons| ==>
                  var i := reg.objects[buttons[m]];
                  live.bindings[i].bound && live.bindings[i].value == Initial(value, buttons[m]) &&
                  (live.bindings[i].active <==> IsActive(reg.instances[i], ValueAt(value, buttons[m]))))
            && (forall j ::
                  (0 <= j < |live.bindings| && forall m :: 0 <= m < |buttons| ==> reg.objects[buttons[m]] != j) ==>
                  live.bindings[j] == Binding(false, false, Undefined))
  {
    var s := State(d, Unbound(|reg.instances|));
    InitThrows(reg, value, pickr, buttons, 0, s);
    InitFrame(reg, value, pickr, buttons, 0, s);
    InitBinds(reg, value, pickr, buttons, 0, s);
  }

  /** A constructed controller has every tool named by a button bound and active exactly when
      it is active for its initial value, and every other tool still unbound and inactive. */
  lemma SetUpActivates(extensions: map<string, Tool>, tools: Option<seq<string>>, targetId: Option<string>, found: bool,
                       input: InputText, buttons: seq<string>, pickr: bool, d: Doc)
    requires SetUp(extensions, tools, targetId, found, input, buttons, pickr, d).result.Ok?
    ensures var live := SetUp(extensions, tools, targetId, found, input, buttons, pickr, d).result.value;
            var value := InitialValue(input).value;
            (forall m :: 0 <= m < |buttons| ==>
               buttons[m] in live.registry.objects &&
               (pickr || !live.registry.instances[live.registry.objects[buttons[m]]].ColorTool?))
            && (forall m :: 0 <= m < |buttons| ==>
                  var i := live.registry.objects[buttons[m]];
                  live.bindings[i].bound && live.bindings[i].value == Initial(value, buttons[m]) &&
                  (live.bindings[i].active <==> IsActive(live.registry.instances[i], ValueAt(value, buttons[m]))))
            && (forall j ::
                  (0 <= j < |live.bindings| && forall m :: 0 <= m < |buttons| ==> live.registry.objects[buttons[m]] != j) ==>
                  live.bindings[j] == Binding(false, false, Undefined))
  {
    FinishActivates(RegistryOf(extensions, Requested(tools)).value, InitialValue(input).value, pickr, buttons, d);
  }

  /** The constructor's button loop, run on the resolved target. */
  method InitButtons(reg: Registry, value: Aggregate, pickr: bool, buttons: seq<string>, target: Target, start: seq<Binding>)
    returns (bindings: seq<Binding>, error: Option<Error>)
    requires WellFormed(reg) && |start| == |reg.instances|
    modifies target
    ensures Built(State(target.Snapshot(), bindings), error) ==
              InitFrom(reg, value, pickr, buttons, 0, State(old(target.Snapshot()), start))
  {
    bindings := start;
    var k := 0;
    while k < |buttons|
      invariant 0 <= k <= |buttons| && |bindings| == |reg.instances|
      invariant InitFrom(reg, value, pickr, buttons, k, State(target.Snapshot(), bindings)) ==
                InitFrom(reg, value, pickr, buttons, 0, State(old(target.Snapshot()), start))
    {
      var n := buttons[k];
      if n !in reg.objects {
        return bindings, Some(ButtonToolNotFound(n));
      }
      var i := reg.objects[n];
      var t := reg.instances[i];
      var b := Binding(true, false, Initial(value, n));
      if t.ColorTool? && !pickr {
        return bindings[i := b], Some(PickrMissing);
      }
      var active := CheckActive(t, ValueAt(value, n));
      if active {
        var b' := Tools.SetState(t, b, target);
        bindings := bindings[i := b'.(active := true)];
      } else {
        bindings := bindings[i := b];
      }
      k := k + 1;
    }
    error := None;
  }

  /** A toolbar: its registry, the target element every tool works on, the bindings of the
      tool instances and the hidden input holding the serialised aggregate state. */
  class ToolbarWidget {
    const registry: Registry
    const target: Target
    var bindings: seq<Binding>
    var input: InputText

    predicate Valid()
      reads this
    {
      WellFormed(registry) && |bindings| == |registry.instances|
    }

    function Current(): State
      reads this, target
    {
      State(target.Snapshot(), bindings)
    }

    constructor Init(registry: Registry, target: Target, bindings: seq<Binding>, input: InputText)
      ensures this.registry == registry && this.target == target
      ensures this.bindings == bindings && this.input == input
    {
      this.registry := registry;
      this.target := target;
      this.bindings := bindings;
      this.input := input;
    }

    /** `new ToolbarWidget(querySelector, target, tools)`; `resolved` is the element the target
        id resolves to. A constructor that throws still leaves on the target what the buttons
        before the failing one wrote. */
    static method Create(extensions: map<string, Tool>, tools: Option<seq<string>>, targetId: Option<string>,
                         resolved: Option<Target>, input: InputText, buttons: seq<string>, pickr: bool)
      returns (r: Result<ToolbarWidget, Error>)
      modifies if resolved.Some? then {resolved.value} else {}
      ensures var s := SetUp(extensions, tools, targetId, resolved.Some?, input, buttons, pickr,
                             if resolved.Some? then old(resolved.value.Snapshot()) else Doc(map[], map[]));
              (resolved.Some? ==> resolved.value.Snapshot() == s.doc)
              && (s.result.Err? ==> r == Err(s.result.error))
              && (s.result.Ok? ==>
                    (r.Ok? && fresh(r.value) && r.value.Valid() &&
                     r.value.registry == s.result.value.registry && r.value.bindings == s.result.value.bindings &&
                     r.value.target == resolved.value && r.value.input == input))
    {
      ghost var d := if resolved.Some? then resolved.value.Snapshot() else Doc(map[], map[]);
      ghost var s := SetUp(extensions, tools, targetId, resolved.Some?, input, buttons, pickr, d);
      if targetId.None? {
        return Err(MissingTarget);
      }
      if resolved.None? {
        return Err(UnresolvedTarget);
      }
      var target := resolved.value;
      var initial := InitialValue(input);
      if initial.Err? {
        assert s == Setup(d, Err(MalformedInput));
        return Err(initial.error);
      }
      var value := initial.value;
      var built := BuildRegistry(extensions, Requested(tools));
      if built.Err? {
        assert s == Setup(d, Err(built.error));
        return Err(built.error);
      }
      var reg := built.value;
      assert s == Finish(reg, value, pickr, buttons, d);
      r := Launch(reg, value, pickr, buttons, target, input);
    }

    /** The end of the constructor, once the registry is built: the button loop on the
        resolved target, then the controller. */
    static method Launch(reg: Registry, value: Aggregate, pickr: bool, buttons: seq<string>, target: Target,
                         input: InputText)
      returns (r: Result<ToolbarWidget, Error>)
      requires WellFormed(reg)
      modifies target
      ensures var s := Finish(reg, value, pickr, buttons, old(target.Snapshot()));
              target.Snapshot() == s.doc
              && (s.result.Err? ==> r == Err(s.result.error))
              && (s.result.Ok? ==>
                    (r.Ok? && fresh(r.value) && r.value.Valid() &&
                     r.value.registry == reg && r.value.bindings == s.result.value.bindings &&
                     r.value.target == target && r.value.input == input))
    {
      var bindings, error := InitButtons(reg, value, pickr, buttons, target, Unbound(|reg.instances|));
      if error.Some? {
        return Err(error.value);
      }
      var w := new ToolbarWidget.Init(reg, target, bindings, input);
      r := Ok(w);
    }

    /** Instance `i`'s `setState` and raised flag. */
    method SwitchOn(i: nat) returns (ok: bool)
      requires Valid() && i < |bindings|
      modifies this, target
      ensures Valid() && input == old(input)
      ensures Outcome(Current(), ok) == SetStep(registry.instances[i], i, old(Current()))
    {
      var t := registry.instances[i];
      var b := bindings[i];
      if b.bound {
        var b' := Tools.SetState(t, b, target);
        bindings := bindings[i := b'.(active := true)];
        ok := true;
      } else if t.StyleTool? {
        ok := false;
      } else {
        var ignored := Tools.SetState(t, b, target);
        ok := false;
      }
    }

    /** Instance `i`'s `resetState` and lowered flag. */
    method SwitchOff(i: nat) returns (ok: bool)
      requires Valid() && i < |bindings|
      modifies this, target
      ensures Valid() && input == old(input)
      ensures Outcome(Current(), ok) == ResetStep(registry.instances[i], i, old(Current()))
    {
      var t := registry.instances[i];
      var b := bindings[i];
      if b.bound {
        var b' := Tools.ResetState(t, b, target);
        bindings := bindings[i := b'.(active := false)];
        ok := true;
      } else if t.StyleTool? {
        ok := false;
      } else {
        var b' := Tools.ResetState(t, b, target);
        bindings := bindings[i := if t.ColorTool? then b.(value := Null) else b];
        ok := false;
      }
    }

    /** The loop at the start of `execute`: reset every member of the group other than
        instance `i` and clear its flag, stopping at the first that throws. */
    method ResetSiblings(members: seq<nat>, i: nat) returns (ok: bool)
      requires Valid() && forall x :: 0 <= x < |members| ==> members[x] < |bindings|
      modifies this, target
      ensures Valid() && input == old(input)
      ensures Outcome(Current(), ok) == ResetOthers(registry.instances, members, 0, i, old(Current()))
    {
      ok := true;
      var m := 0;
      while m < |members|
        invariant 0 <= m <= |members|
        invariant Valid() && input == old(input) && ok
        invariant ResetOthers(registry.instances, members, m, i, Current()) ==
                  ResetOthers(registry.instances, members, 0, i, old(Current()))
      {
        if members[m] != i {
          ok := SwitchOff(members[m]);
          if !ok {
            return;
          }
        }
        m := m + 1;
      }
    }

    /** `toolObject.execute(this.target, this._toolGroups[toolObject.group])` for the bound
        instance `i`, the one whose button was clicked. */
    method Execute(i: nat) returns (ok: bool)
      requires Valid() && i < |bindings| && bindings[i].bound
      modifies this, target
      ensures Valid() && input == old(input)
      ensures Outcome(Current(), ok) == ExecuteSpec(registry, i, old(Current()))
    {
      var t := registry.instances[i];
      if t.ColorTool? {
        bindings := bindings[i := bindings[i].(active := Truthy(target.Snapshot().Data(t.attribute)))];
        ok := true;
        return;
      }
      ok := ResetSiblings(GroupMembers(registry, t), i);
      if !ok {
        return;
      }
      if bindings[i].active {
        ok := SwitchOff(i);
      } else {
        ok := SwitchOn(i);
      }
    }

    /** `getState()`; `None` stands for the error a tool without a target throws. */
    method GetState() returns (r: Option<Aggregate>)
      requires Valid()
      ensures r == AggregateOf(registry, Current())
    {
      var reg, d := registry, target.Snapshot();
      var state: Aggregate := map[];
      var k := 0;
      while k < |reg.names|
        invariant 0 <= k <= |reg.names|
        invariant forall j :: 0 <= j < k ==> bindings[reg.objects[reg.names[j]]].bound
        invariant forall x :: x in reg.names[..k] ==> x in reg.objects
        invariant state == Collect(reg, d, reg.names[..k])
      {
        var n := reg.names[k];
        var i := reg.objects[n];
        if !bindings[i].bound {
          return None;
        }
        var v := StateOf(reg.instances[i], d);
        CollectStep(reg, d, reg.names[..k], n);
        assert reg.names[..k + 1] == reg.names[..k] + [n];
        if Truthy(v) {
          state := state[n := v];
        }
        k := k + 1;
      }
      assert reg.names[..k] == reg.names;
      r := Some(state);
    }

    /** `getValue()`: the aggregate state. */
    method GetValue() returns (r: Option<Aggregate>)
      requires Valid()
      ensures r == AggregateOf(registry, Current())
    {
      r := GetState();
    }

    /** `setTools(value)`. */
    method SetTools(value: Aggregate) returns (ok: bool)
      requires Valid()
      modifies this, target
      ensures Valid() && input == old(input)
      ensures Outcome(Current(), ok) == SetToolsFrom(registry, value, 0, old(Current()))
    {
      var k := 0;
      while k < |registry.names|
        invariant 0 <= k <= |registry.names|
        invariant Valid() && input == old(input)
        invariant SetToolsFrom(registry, value, k, Current()) == SetToolsFrom(registry, value, 0, old(Current()))
      {
        var n := registry.names[k];
        var i := registry.objects[n];
        if Wanted(value, n) {
          ok := SwitchOn(i);
        } else {
          ok := SwitchOff(i);
        }
        if !ok {
          return;
        }
        k := k + 1;
      }
      ok := true;
    }

    /** `setState(value, skipTools)`: nothing for a `null` value; otherwise `setTools` unless
        skipped, then the value's serialisation into the input. */
    method SetState(value: Option<Aggregate>, skipTools: bool) returns (ok: bool)
      requires Valid()
      modifies this, target
      ensures Valid()
      ensures value.None? ==> ok && Current() == old(Current()) && input == old(input)
      ensures value.Some? && skipTools ==> ok && Current() == old(Current()) && input == Serialized(value)
      ensures value.Some? && !skipTools ==>
                var o := SetToolsFrom(registry, value.value, 0, old(Current()));
                Current() == o.state && ok == o.ok && input == (if o.ok then Serialized(value) else old(input))
    {
      ok := true;
      if value.None? {
        return;
      }
      if !skipTools {
        ok := SetTools(value.value);
        if !ok {
          return;
        }
      }
      input := Serialized(value);
    }

    /** `updateState()`: serialise the recomputed aggregate state into the input without
        touching any tool or the target. */
    method UpdateState() returns (ok: bool)
      requires Valid()
      modifies this, target
      ensures Valid() && Current() == old(Current())
      ensures var a := AggregateOf(registry, Current());
              ok == a.Some? && input == (if a.Some? then Serialized(a) else old(input))
    {
      var state := GetState();
      if state.None? {
        return false;
      }
      ok := SetState(state, true);
    }

    /** `updateGroup(toolObject)` for a click on the button of the bound instance `i`. */
    method UpdateGroup(i: nat) returns (ok: bool)
      requires Valid() && i < |bindings| && bindings[i].bound
      modifies this, target
      ensures Valid()
      ensures var e := ExecuteSpec(registry, i, old(Current()));
              var a := AggregateOf(registry, e.state);
              Current() == e.state && ok == (e.ok && a.Some?) &&
              input == (if e.ok && a.Some? then Serialized(a) else old(input))
    {
      ok := Execute(i);
      if ok {
        ok := UpdateState();
      }
    }

    /** The colour picker's `save` event on colour instance `i`: store and apply a colour, or
        reset when the picker was cleared (`None`). The input is not updated. */
    method SaveColor(i: nat, color: Option<string>)
      requires Valid() && i < |bindings| && registry.instances[i].ColorTool? && bindings[i].bound
      modifies this, target
      ensures Valid() && input == old(input)
      ensures color.Some? ==>
                target.Snapshot() == SetDoc(registry.instances[i], Str(color.value), old(target.Snapshot())) &&
                bindings == old(bindings)[i := Binding(true, true, Str(color.value))]
      ensures color.None? ==>
                target.Snapshot() == ResetDoc(registry.instances[i], old(target.Snapshot())) &&
                bindings == old(bindings)[i := Binding(true, false, Null)]
    {
      var t := registry.instances[i];
      if color.Some? {
        var b := bindings[i].(value := Str(color.value));
        var b' := Tools.SetState(t, b, target);
        bindings := bindings[i := b'];
      } else {
        var b' := Tools.ResetState(t, bindings[i], target);
        bindings := bindings[i := b'];
      }
    }

    /** The colour picker's `clear` event on colour instance `i`. */
    method ClearColor(i: nat)
      requires Valid() && i < |bindings| && registry.instances[i].ColorTool? && bindings[i].bound
      modifies this, target
      ensures Valid() && input == old(input)
      ensures target.Snapshot() == ResetDoc(registry.instances[i], old(target.Snapshot()))
      ensures bindings == old(bindings)[i := Binding(true, false, Null)]
    {
      var b' := Tools.ResetState(registry.instances[i], bindings[i], target);
      bindings := bindings[i := b'];
    }
  }
}
