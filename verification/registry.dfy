/**
 * Name-keyed tool collections with Python `dict` semantics: a later entry
 * with the same name replaces the value, and an ordered dict keeps the
 * position where the name first appeared.
 */
module Registry {
  import opened Text

  /** No later tool in `tools` has the name of `tools[i]`. */
  predicate LastOfName<T>(tools: seq<T>, nameOf: T -> String, i: int)
    requires 0 <= i < |tools|
  {
    forall j :: i < j < |tools| ==> nameOf(tools[j]) != nameOf(tools[i])
  }

  /** `{tool.name: tool for tool in tools}` */
  function BuildTable<T>(tools: seq<T>, nameOf: T -> String): (table: map<String, T>)
    ensures forall n :: n in table <==> exists i :: 0 <= i < |tools| && nameOf(tools[i]) == n
    ensures forall n :: n in table ==> nameOf(table[n]) == n
    decreases |tools|
  {
    if |tools| == 0 then map[]
    else
      var init := tools[..|tools| - 1];
      var last := tools[|tools| - 1];
      var t := BuildTable(init, nameOf);
      assert forall i :: 0 <= i < |init| ==> init[i] == tools[i];
      t[nameOf(last) := last]
  }

  /** For duplicate names the later tool wins. */
  lemma {:induction false} BuildTableLastWins<T>(tools: seq<T>, nameOf: T -> String, i: int)
    requires 0 <= i < |tools| && LastOfName(tools, nameOf, i)
    ensures nameOf(tools[i]) in BuildTable(tools, nameOf)
    ensures BuildTable(tools, nameOf)[nameOf(tools[i])] == tools[i]
    decreases |tools|
  {
    var init := tools[..|tools| - 1];
    if i < |tools| - 1 {
      assert init[i] == tools[i];
      assert LastOfName(init, nameOf, i) by {
        forall j | i < j < |init|
          ensures nameOf(init[j]) != nameOf(init[i])
        {
          assert init[j] == tools[j];
        }
      }
      BuildTableLastWins(init, nameOf, i);
    }
  }

  /** A dict item: a tool and the name it is stored under. */
  datatype Entry<T> = Entry(name: String, value: T)

  /** Where `n` is stored in an ordered dict held as its items, or -1. */
  function Position<T>(es: seq<Entry<T>>, n: String): (p: int)
    ensures -1 <= p < |es|
    ensures p >= 0 ==> es[p].name == n && forall j :: 0 <= j < p ==> es[j].name != n
    ensures p < 0 ==> forall j :: 0 <= j < |es| ==> es[j].name != n
    decreases |es|
  {
    if |es| == 0 then -1
    else if es[0].name == n then 0
    else
      var p := Position(es[1..], n);
      if p < 0 then -1 else p + 1
  }

  predicate Distinct<T>(es: seq<Entry<T>>) {
    forall i, j :: 0 <= i < j < |es| ==> es[i].name != es[j].name
  }

  lemma PositionOfDistinct<T>(es: seq<Entry<T>>, i: int)
    requires Distinct(es) && 0 <= i < |es|
    ensures Position(es, es[i].name) == i
  {
  }

  /** `d[e.name] = e.value`: an existing name keeps its place, a new one goes last. */
  function Assign<T>(es: seq<Entry<T>>, e: Entry<T>): (r: seq<Entry<T>>)
    ensures |r| == |es| + (if Position(es, e.name) < 0 then 1 else 0)
  {
    var p := Position(es, e.name);
    if p < 0 then es + [e] else es[p := e]
  }

  /** After an assignment the names are still distinct and the assigned name holds the new value. */
  lemma AssignStores<T>(es: seq<Entry<T>>, e: Entry<T>)
    requires Distinct(es)
    ensures Distinct(Assign(es, e))
    ensures Position(Assign(es, e), e.name) == (if Position(es, e.name) < 0 then |es| else Position(es, e.name))
    ensures Assign(es, e)[Position(Assign(es, e), e.name)] == e
  {
    if Position(es, e.name) < 0 {
      AppendStores(es, e);
    } else {
      OverwriteStores(es, e, Position(es, e.name));
    }
  }

  lemma AppendStores<T>(es: seq<Entry<T>>, e: Entry<T>)
    requires Distinct(es) && Position(es, e.name) < 0
    ensures Distinct(es + [e]) && Position(es + [e], e.name) == |es|
  {
    var r := es + [e];
    forall i, j | 0 <= i < j < |r|
      ensures r[i].name != r[j].name
    {
      assert r[i] == es[i];
    }
    PositionOfDistinct(r, |es|);
  }

  lemma OverwriteStores<T>(es: seq<Entry<T>>, e: Entry<T>, p: int)
    requires Distinct(es) && 0 <= p < |es| && es[p].name == e.name
    ensures Distinct(es[p := e]) && Position(es[p := e], e.name) == p
  {
    var r := es[p := e];
    forall i, j | 0 <= i < j < |r|
      ensures r[i].name != r[j].name
    {
      assert r[i].name == es[i].name && r[j].name == es[j].name;
    }
    PositionOfDistinct(r, p);
  }

  /** Every other name keeps its position. */
  lemma AssignKeeps<T>(es: seq<Entry<T>>, e: Entry<T>, n: String)
    requires Distinct(es)
    requires n != e.name || Position(es, n) >= 0
    ensures Position(Assign(es, e), n) == Position(es, n)
  {
    var r := Assign(es, e);
    var p := Position(es, e.name);
    var q := Position(es, n);
    if n == e.name {
      AssignStores(es, e);
    } else if p < 0 {
      PositionAppend(es, e, n);
    } else if q >= 0 {
      AssignStores(es, e);
      PositionOfDistinct(r, q);
    } else {
      assert forall j :: 0 <= j < |r| ==> r[j].name != n;
    }
  }

  lemma {:induction false} PositionAppend<T>(es: seq<Entry<T>>, e: Entry<T>, n: String)
    requires n != e.name
    ensures Position(es + [e], n) == Position(es, n)
  {
    var p := Position(es + [e], n);
    var q := Position(es, n);
    if p >= 0 {
      assert p < |es|;
      assert (es + [e])[p] == es[p];
    }
    if q >= 0 {
      assert (es + [e])[q] == es[q];
    }
  }

  /**
   * `{t.name: t for t in tools}` as an ordered dict: one item per name, at
   * the place where the name first appeared, holding the last value given.
   */
  function DictItems<T>(tools: seq<Entry<T>>): (r: seq<Entry<T>>)
    ensures Distinct(r)
    ensures forall n :: Position(r, n) >= 0 <==> Position(tools, n) >= 0
    decreases |tools|
  {
    if |tools| == 0 then []
    else
      var init := tools[..|tools| - 1];
      var last := tools[|tools| - 1];
      var d := DictItems(init);
      AssignStores(d, last);
      forall n
        ensures Position(Assign(d, last), n) >= 0 <==> Position(tools, n) >= 0
      {
        PositionOfPrefix(tools, n);
        if n != last.name || Position(d, n) >= 0 {
          AssignKeeps(d, last, n);
        }
      }
      Assign(d, last)
  }

  /** A name occurs in a list iff it occurs in all but the last item or is the last item's name. */
  lemma PositionOfPrefix<T>(es: seq<Entry<T>>, n: String)
    requires |es| > 0
    ensures Position(es, n) >= 0 <==> Position(es[..|es| - 1], n) >= 0 || n == es[|es| - 1].name
  {
    var init := es[..|es| - 1];
    if Position(init, n) >= 0 {
      var q := Position(init, n);
      assert es[q] == init[q];
    }
    if Position(es, n) >= 0 && n != es[|es| - 1].name {
      var p := Position(es, n);
      assert init[p] == es[p];
    }
  }

  /** The value kept for a name is that of its last item. */
  lemma {:induction false} DictItemsLastWins<T>(tools: seq<Entry<T>>, i: int)
    requires 0 <= i < |tools|
    requires forall j :: i < j < |tools| ==> tools[j].name != tools[i].name
    ensures DictItems(tools)[Position(DictItems(tools), tools[i].name)] == tools[i]
    decreases |tools|
  {
    var init := tools[..|tools| - 1];
    var last := tools[|tools| - 1];
    var d := DictItems(init);
    AssignStores(d, last);
    if i < |tools| - 1 {
      assert init[i] == tools[i];
      DictItemsLastWins(init, i);
      AssignKeeps(d, last, tools[i].name);
      assert Position(d, tools[i].name) >= 0;
      var q := Position(d, tools[i].name);
      assert Assign(d, last)[q] == d[q];
    }
  }

  /** Names keep the order of their first appearance. */
  lemma {:induction false} DictItemsFirstPosition<T>(tools: seq<Entry<T>>, n: String, m: String)
    requires 0 <= Position(tools, n) < Position(tools, m)
    ensures 0 <= Position(DictItems(tools), n) < Position(DictItems(tools), m)
    decreases |tools|
  {
    var init := tools[..|tools| - 1];
    var last := tools[|tools| - 1];
    var d := DictItems(init);
    PositionInPrefix(tools, n);
    assert Position(d, n) >= 0;
    AssignKeeps(d, last, n);
    if Position(tools, m) < |tools| - 1 {
      PositionInPrefix(tools, m);
      DictItemsFirstPosition(init, n, m);
      AssignKeeps(d, last, m);
    } else {
      assert m == last.name;
      PositionOfPrefix(tools, m);
      assert Position(init, m) < 0;
      AssignStores(d, last);
    }
  }

  /** A name found before the last item has the same position in the prefix. */
  lemma PositionInPrefix<T>(es: seq<Entry<T>>, n: String)
    requires |es| > 0 && 0 <= Position(es, n) < |es| - 1
    ensures Position(es[..|es| - 1], n) == Position(es, n)
  {
    var init := es[..|es| - 1];
    var p := Position(es, n);
    assert init[p] == es[p];
    assert forall j :: 0 <= j < p ==> init[j] == es[j];
  }
}
