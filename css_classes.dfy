/** The CSS classes of a widget's outer node: the `flx-<Name>` classes from
    the class hierarchy, the classes of the `css_class` property, and the
    flex-container classes a plain widget takes when its single child is a
    box layout or a panel. The node's class list is a set of names. */
module CssClasses {
  import opened Wrappers
  import opened Values
  import Text

  /** The non-empty names of a space-separated class string. */
  function Names(s: string): (r: set<string>)
    ensures "" !in r
    ensures forall n :: n in r ==> ' ' !in n
  {
    set i | 0 <= i < |Text.Split(s, ' ')| && Text.Split(s, ' ')[i] != "" :: Text.Split(s, ' ')[i]
  }

  /** A class string written as names joined by single spaces yields those
      names. */
  lemma NamesOfJoin(ns: seq<string>)
    requires |ns| >= 1
    requires forall i :: 0 <= i < |ns| ==> ns[i] != "" && ' ' !in ns[i]
    ensures Names(Text.Join(ns, " ")) == set i | 0 <= i < |ns| :: ns[i]
  {
    Text.SplitJoin(ns, ' ');
    assert Text.Split(Text.Join(ns, [' ']), ' ') == ns;
    assert [' '] == " ";
  }

  /** The reserved class-name fragments the singleton rule looks for. */
  const LayoutMarker := "flx-Layout"
  const BoxLayoutMarker := "flx-BoxLayout"
  const VBoxMarker := "flx-VBox"
  const PanelMarkers: seq<string> := ["flx-BoxPanel", "flx-SplitPanel", "flx-DockPanel", "flx-StackPanel", "flx-TabPanel"]
  const SingletonClassNames: set<string> := {"flx-hbox", "flx-vbox", "flx-abs-children"}

  /** `marker in node.className`: the class string holds the marker as a
      substring. A marker holds no space, so this is a substring of one of
      the names. */
  predicate Mentions(names: set<string>, marker: string)
  {
    exists n :: n in names && Text.Contains(n, marker)
  }

  /** The flex class a plain widget takes for its children: only with a
      single child; `flx-hbox` for a vertical box layout child (the
      widget lays out across it), `flx-vbox` for any other box layout, and
      `flx-abs-children` for a panel. */
  function SingletonChoice(children: seq<set<string>>): (r: Option<string>)
    ensures r.Some? ==> r.value in SingletonClassNames
    ensures |children| != 1 ==> r.None?
    ensures |children| == 1 && Mentions(children[0], BoxLayoutMarker) ==>
      r == Some(if Mentions(children[0], VBoxMarker) then "flx-hbox" else "flx-vbox")
    ensures |children| == 1 && !Mentions(children[0], BoxLayoutMarker) ==>
      r == if MentionsPanel(children[0]) then Some("flx-abs-children") else None
  {
    if |children| != 1 then None
    else
      var sub := children[0];
      if Mentions(sub, BoxLayoutMarker) then
        (if Mentions(sub, VBoxMarker) then Some("flx-hbox") else Some("flx-vbox"))
      else if MentionsPanel(sub) then Some("flx-abs-children")
      else None
  }

  /** The class string names one of the five panels. */
  predicate MentionsPanel(names: set<string>)
  {
    exists k :: 0 <= k < |PanelMarkers| && Mentions(names, PanelMarkers[k])
  }

  /** The class list after the singleton rule: a layout keeps its classes;
      any other widget drops the three flex classes and takes the one its
      children call for. */
  function SingletonClasses(own: set<string>, children: seq<set<string>>): (r: set<string>)
    ensures Mentions(own, LayoutMarker) ==> r == own
    ensures !Mentions(own, LayoutMarker) ==>
      r * SingletonClassNames == (if SingletonChoice(children).Some? then {SingletonChoice(children).value} else {})
    ensures r - SingletonClassNames == own - SingletonClassNames
  {
    if Mentions(own, LayoutMarker) then own
    else
      var cleared := own - SingletonClassNames;
      match SingletonChoice(children)
      case None => cleared
      case Some(c) => cleared + {c}
  }

  /** A string without the character `c` holds no substring that has it. */
  lemma {:induction false} MissingCharNotContained(s: string, sub: string, c: char)
    requires c in sub && c !in s
    ensures !Text.Contains(s, sub)
    decreases |s|
  {
    var k :| 0 <= k < |sub| && sub[k] == c;
    if k < |s| {
      assert s[k] != sub[k];
    }
    if |s| > 0 {
      MissingCharNotContained(s[1..], sub, c);
    }
  }

  /** No flex class holds an upper-case `L`, which the layout marker has. */
  lemma FlexClassesAreNotLayouts()
    ensures 'L' in LayoutMarker
    ensures forall c :: c in SingletonClassNames ==> 'L' !in c
  {
    assert LayoutMarker[4] == 'L';
  }

  /** A widget that is not a layout does not become one by the rule. */
  lemma StaysNonLayout(own: set<string>, children: seq<set<string>>)
    requires !Mentions(own, LayoutMarker)
    ensures !Mentions(SingletonClasses(own, children), LayoutMarker)
  {
    FlexClassesAreNotLayouts();
    var once := SingletonClasses(own, children);
    forall n | n in once
      ensures !Text.Contains(n, LayoutMarker)
    {
      if n !in own {
        MissingCharNotContained(n, LayoutMarker, 'L');
      }
    }
  }

  /** The reaction is stable: running it again for the same children
      changes nothing. */
  lemma SingletonIdempotent(own: set<string>, children: seq<set<string>>)
    ensures SingletonClasses(SingletonClasses(own, children), children) == SingletonClasses(own, children)
  {
    if !Mentions(own, LayoutMarker) {
      StaysNonLayout(own, children);
    }
  }

  /** The number of classes the initialiser walks before giving up. */
  const MaxDepth: nat := 32

  /** The class walk: add `flx-<name>` for the class and each base class up
      to and including `Widget`. At most `fuel` classes are visited; running
      out is a RuntimeError, and a class without a base (not derived from
      `Widget`) is a TypeError when its name is read. Returns the classes
      added in order and the outcome. */
  function Walk(cls: Option<string>, bases: map<string, string>, fuel: nat): (r: (seq<string>, Outcome<Error>))
    ensures |r.0| <= fuel
    decreases fuel
  {
    if fuel == 0 then ([], Fail(RuntimeError))
    else if cls.None? then ([], Fail(TypeError))
    else
      var name := "flx-" + cls.value;
      if cls.value == "Widget" then ([name], Pass)
      else
        var rest := Walk(BaseOf(cls.value, bases), bases, fuel - 1);
        ([name] + rest.0, rest.1)
  }

  /** A walk that passes ends at `Widget`; one that fails fails with a
      RuntimeError or a TypeError; a walk from a class starts with it. */
  lemma {:induction false} WalkOutcome(cls: Option<string>, bases: map<string, string>, fuel: nat)
    ensures var r := Walk(cls, bases, fuel);
      r.1.Pass? ==> |r.0| > 0 && r.0[|r.0| - 1] == "flx-Widget"
    ensures var r := Walk(cls, bases, fuel);
      fuel > 0 && cls.Some? ==> |r.0| > 0 && r.0[0] == "flx-" + cls.value
    ensures var r := Walk(cls, bases, fuel);
      r.1.Fail? ==> r.1.error == RuntimeError || r.1.error == TypeError
    decreases fuel
  {
    if fuel > 0 && cls.Some? && cls.value != "Widget" {
      WalkOutcome(BaseOf(cls.value, bases), bases, fuel - 1);
    }
  }

  /** Every class the walk adds is a `flx-` name. */
  lemma {:induction false} WalkNames(cls: Option<string>, bases: map<string, string>, fuel: nat)
    ensures forall i :: 0 <= i < |Walk(cls, bases, fuel).0| ==> "flx-" <= Walk(cls, bases, fuel).0[i]
    decreases fuel
  {
    if fuel > 0 && cls.Some? && cls.value != "Widget" {
      WalkNames(BaseOf(cls.value, bases), bases, fuel - 1);
    }
  }

  /** One step of the walk from a named class. */
  lemma WalkStep(cls: string, bases: map<string, string>, fuel: nat)
    requires fuel > 0
    ensures cls == "Widget" ==> Walk(Some(cls), bases, fuel) == (["flx-" + cls], Pass)
    ensures cls != "Widget" ==>
      Walk(Some(cls), bases, fuel).0 == ["flx-" + cls] + Walk(BaseOf(cls, bases), bases, fuel - 1).0
    ensures cls != "Widget" ==>
      Walk(Some(cls), bases, fuel).1 == Walk(BaseOf(cls, bases), bases, fuel - 1).1
  {
  }

  /** The walk so far has added `added` and stopped: out of fuel or at a
      class without a base. */
  lemma WalkEnds(top: (seq<string>, Outcome<Error>), added: seq<string>, cur: Option<string>,
                 bases: map<string, string>, fuel: nat)
    requires top == (added + Walk(cur, bases, fuel).0, Walk(cur, bases, fuel).1)
    requires fuel == 0 || cur.None?
    ensures top.0 == added
    ensures top.1 == Fail(if fuel == 0 then RuntimeError else TypeError)
  {
    assert added + [] == added;
  }

  /** The walk so far has added `added` and visits the named class `cls`
      next: at `Widget` it stops after adding it, otherwise it goes on to
      the base class. */
  lemma WalkAdvances(top: (seq<string>, Outcome<Error>), added: seq<string>, cls: string,
                     bases: map<string, string>, fuel: nat)
    requires top == (added + Walk(Some(cls), bases, fuel).0, Walk(Some(cls), bases, fuel).1)
    requires fuel > 0
    ensures cls == "Widget" ==> top == (added + ["flx-" + cls], Pass)
    ensures cls != "Widget" ==>
      top == ((added + ["flx-" + cls]) + Walk(BaseOf(cls, bases), bases, fuel - 1).0,
              Walk(BaseOf(cls, bases), bases, fuel - 1).1)
  {
    WalkStep(cls, bases, fuel);
    var rest := Walk(BaseOf(cls, bases), bases, fuel - 1).0;
    assert (added + ["flx-" + cls]) + rest == added + (["flx-" + cls] + rest);
  }

  /** The set of the names in a sequence. */
  function NameSet(a: seq<string>): set<string>
  {
    if a == [] then {} else NameSet(a[..|a| - 1]) + {a[|a| - 1]}
  }

  /** The names in a sequence grown by one. */
  lemma NamesSnoc(a: seq<string>, x: string)
    ensures NameSet(a + [x]) == NameSet(a) + {x}
  {
    assert (a + [x])[..|a|] == a;
  }

  /** `cls._base_class`: absent for a class that is not in the hierarchy. */
  function BaseOf(cls: string, bases: map<string, string>): Option<string>
  {
    if cls in bases then Some(bases[cls]) else None
  }

  /** A class that is its own base and is not `Widget` loops until the 32
      iterations run out. */
  lemma {:induction false} SelfBaseRunsOut(cls: string, bases: map<string, string>, fuel: nat)
    requires cls != "Widget" && cls in bases && bases[cls] == cls
    ensures Walk(Some(cls), bases, fuel).1 == Fail(RuntimeError)
    ensures |Walk(Some(cls), bases, fuel).0| == fuel
    ensures forall i :: 0 <= i < fuel ==> Walk(Some(cls), bases, fuel).0[i] == "flx-" + cls
    decreases fuel
  {
    if fuel > 0 {
      SelfBaseRunsOut(cls, bases, fuel - 1);
      assert BaseOf(cls, bases) == Some(cls);
      var rest := Walk(Some(cls), bases, fuel - 1);
      assert Walk(Some(cls), bases, fuel) == (["flx-" + cls] + rest.0, rest.1);
    }
  }

  /** A direct subclass of `Widget` gets its own class and `flx-Widget`. */
  lemma DirectSubclass(cls: string, bases: map<string, string>)
    requires cls != "Widget" && cls in bases && bases[cls] == "Widget"
    ensures Walk(Some(cls), bases, MaxDepth) == (["flx-" + cls, "flx-Widget"], Pass)
  {
    assert BaseOf(cls, bases) == Some("Widget");
    var rest := Walk(Some("Widget"), bases, MaxDepth - 1);
    WalkStep("Widget", bases, MaxDepth - 1);
    assert "flx-" + "Widget" == "flx-Widget";
    assert rest == (["flx-Widget"], Pass);
    assert Walk(Some(cls), bases, MaxDepth) == (["flx-" + cls] + rest.0, rest.1);
    assert ["flx-" + cls] + rest.0 == ["flx-" + cls, "flx-Widget"];
  }

  /** The class list of an outer node. */
  class ClassList {
    var names: set<string>

    constructor ()
      ensures names == {}
    {
      names := {};
    }

    /** The `css_class` reaction: for a batch of change events, remove the
        names of the first event's old value and add those of the last
        event's new value; an empty batch changes nothing. */
    method CssClassChanged(events: seq<(string, string)>)
      modifies this
      ensures events == [] ==> names == old(names)
      ensures events != [] ==>
        names == (old(names) - Names(events[0].0)) + Names(events[|events| - 1].1)
    {
      if |events| == 0 {
        return;
      }
      var olds := Text.Split(events[0].0, ' ');
      var i := 0;
      while i < |olds|
        invariant 0 <= i <= |olds|
        invariant names == old(names) - (set j | 0 <= j < i && olds[j] != "" :: olds[j])
      {
        if olds[i] != "" {
          names := names - {olds[i]};
        }
        i := i + 1;
      }
      assert (set j | 0 <= j < |olds| && olds[j] != "" :: olds[j]) == Names(events[0].0);
      var news := Text.Split(events[|events| - 1].1, ' ');
      ghost var removed := names;
      i := 0;
      while i < |news|
        invariant 0 <= i <= |news|
        invariant names == removed + (set j | 0 <= j < i && news[j] != "" :: news[j])
      {
        if news[i] != "" {
          names := names + {news[i]};
        }
        i := i + 1;
      }
      assert (set j | 0 <= j < |news| && news[j] != "" :: news[j]) == Names(events[|events| - 1].1);
    }

    /** The singleton-container reaction to a change of children, given the
        class lists of the children. */
    method MakeSingletonContainerWork(children: seq<set<string>>)
      modifies this
      ensures names == SingletonClasses(old(names), children)
    {
      if !Mentions(names, LayoutMarker) {
        names := names - {"flx-hbox"};
        names := names - {"flx-vbox"};
        names := names - {"flx-abs-children"};
        if |children| == 1 {
          var sub := children[0];
          if Mentions(sub, BoxLayoutMarker) {
            if Mentions(sub, VBoxMarker) {
              names := names + {"flx-hbox"};
            } else {
              names := names + {"flx-vbox"};
            }
          } else if MentionsPanel(sub) {
            names := names + {"flx-abs-children"};
          }
        }
      }
    }

    /** One iteration of the class-name loop: add `flx-<cls>`. */
    method AddClassName(cls: string, bases: map<string, string>, ghost fuel: nat, ghost start: set<string>,
                        ghost top: (seq<string>, Outcome<Error>), ghost added: seq<string>)
      returns (ghost added': seq<string>)
      requires fuel > 0
      requires top == (added + Walk(Some(cls), bases, fuel).0, Walk(Some(cls), bases, fuel).1)
      requires names == start + NameSet(added)
      modifies this
      ensures names == start + NameSet(added')
      ensures cls == "Widget" ==> top == (added', Pass)
      ensures cls != "Widget" ==>
        top == (added' + Walk(BaseOf(cls, bases), bases, fuel - 1).0, Walk(BaseOf(cls, bases), bases, fuel - 1).1)
    {
      var name := "flx-" + cls;
      WalkAdvances(top, added, cls, bases, fuel);
      NamesSnoc(added, name);
      names := names + {name};
      added' := added + [name];
    }

    /** The class-name loop of the widget initialiser: at most 32 classes,
        from the widget's own class up to `Widget`. The names added before
        an error stay on the node. */
    method AddHierarchyClasses(cls: string, bases: map<string, string>) returns (r: Outcome<Error>)
      modifies this
      ensures var w := Walk(Some(cls), bases, MaxDepth);
        names == old(names) + NameSet(w.0) && r == w.1
    {
      ghost var top := Walk(Some(cls), bases, MaxDepth);
      var cur := Some(cls);
      var fuel := MaxDepth;
      ghost var added: seq<string> := [];
      assert added + top.0 == top.0;
      while fuel > 0
        invariant top == (added + Walk(cur, bases, fuel).0, Walk(cur, bases, fuel).1)
        invariant names == old(names) + NameSet(added)
      {
        if cur.None? {
          WalkEnds(top, added, cur, bases, fuel);
          return Fail(TypeError);
        }
        added := AddClassName(cur.value, bases, fuel, old(names), top, added);
        if cur.value == "Widget" {
          return Pass;
        }
        cur := BaseOf(cur.value, bases);
        fuel := fuel - 1;
      }
      WalkEnds(top, added, cur, bases, fuel);
      return Fail(RuntimeError);
    }
  }
}
