/** The drawing tools offered by the tool bar (src/Frame/Tools.java). */
module Tools {
  import opened Wrappers

  /** The five enum constants, in declaration order. */
  datatype Tool = Pencil | Line | Rectangle | Circle | Clear

  /** `Tools.values()`: every constant, in declaration order. */
  const Values: seq<Tool> := [Pencil, Line, Rectangle, Circle, Clear]

  /** The constructor arguments of the five constants, in declaration order. */
  const Labels: seq<string> := ["Crayon", "Ligne", "Rectangle", "Cercle", "Effacer"]

  /** `getName()`: the display label passed to the constructor. The field holding it is
      `final`, so a tool's label is a function of the tool alone. */
  function Name(t: Tool): (n: string)
    ensures t == Pencil ==> n == "Crayon"
    ensures t == Line ==> n == "Ligne"
    ensures t == Rectangle ==> n == "Rectangle"
    ensures t == Circle ==> n == "Cercle"
    ensures t == Clear ==> n == "Effacer"
  {
    Labels[IndexOf(t)]
  }

  /** `values()` lists each tool exactly once, in the order PENCIL, LINE, RECTANGLE, CIRCLE, CLEAR,
      and their labels are the fixed ones. */
  lemma ValuesListEachToolOnce()
    ensures |Values| == 5
    ensures forall t: Tool :: t in Values
    ensures forall i, j :: 0 <= i < j < |Values| ==> Values[i] != Values[j]
    ensures forall i :: 0 <= i < |Values| ==> Name(Values[i]) == Labels[i]
  {
    forall t: Tool ensures t in Values {
      assert Values[IndexOf(t)] == t;
    }
  }

  /** The five labels are pairwise distinct: `getName` is injective. */
  lemma NameInjective(t: Tool, u: Tool)
    ensures Name(t) == Name(u) <==> t == u
  {
  }

  /** The first tool of `ts` whose label equals `name` exactly, as the `for … break` loop of
      `setCurrentTool` finds it; `None` when no label matches. */
  function FirstNamed(ts: seq<Tool>, name: string): (r: Option<Tool>)
    ensures r.Some? ==> r.value in ts && Name(r.value) == name
    ensures r.None? <==> forall i :: 0 <= i < |ts| ==> Name(ts[i]) != name
    ensures r.Some? ==> exists i :: 0 <= i < |ts| && ts[i] == r.value
                                     && forall j :: 0 <= j < i ==> Name(ts[j]) != name
  {
    if ts == [] then None
    else if Name(ts[0]) == name then Some(ts[0])
    else FirstNamed(ts[1..], name)
  }

  /** The tool `setCurrentTool(name)` selects, if any. */
  function Lookup(name: string): (r: Option<Tool>)
    ensures r.Some? ==> Name(r.value) == name
    ensures r.None? <==> name !in Labels
  {
    ValuesListEachToolOnce();
    assert name in Labels ==> exists i :: 0 <= i < |Values| && Name(Values[i]) == name;
    FirstNamed(Values, name)
  }

  /** Name lookup is the exact inverse of `getName`: it yields `t` exactly when `t`'s label
      is `name`, character for character. */
  lemma LookupInvertsName(name: string, t: Tool)
    ensures Lookup(name) == Some(t) <==> Name(t) == name
  {
    if Name(t) == name {
      ValuesListEachToolOnce();
      assert Values[IndexOf(t)] == t;
      var r := Lookup(name);
      assert r.Some?;
      NameInjective(r.value, t);
    }
  }

  /** `LookupInvertsName` for every tool at once. */
  lemma LookupMatchesNames(name: string)
    ensures forall t :: Lookup(name) == Some(t) <==> Name(t) == name
  {
    forall t ensures Lookup(name) == Some(t) <==> Name(t) == name {
      LookupInvertsName(name, t);
    }
  }

  /** Position of a tool in `Values`. */
  function IndexOf(t: Tool): (i: nat)
    ensures i < |Values| && Values[i] == t
  {
    match t
    case Pencil => 0
    case Line => 1
    case Rectangle => 2
    case Circle => 3
    case Clear => 4
  }
}
