/**
 * Foreign keys between cached lists, resolved with `Array.prototype.find` ("first match")
 * in both directions: an id to the parent's display name, and a chosen name back to an id.
 */
module CrossReference {
  import opened Wrappers
  import opened OptimisticCache
  import Coercion

  /** Index of the first element of `s` satisfying `p`, or `None` when there is none. */
  function FirstIndex<T>(s: seq<T>, p: T -> bool): (r: Option<nat>)
    ensures r.Some? ==> r.value < |s| && p(s[r.value])
    ensures r.Some? ==> forall j :: 0 <= j < r.value ==> !p(s[j])
    ensures r.None? <==> forall j :: 0 <= j < |s| ==> !p(s[j])
  {
    if s == [] then None
    else if p(s[0]) then Some(0)
    else
      match FirstIndex(s[1..], p)
      case None => None
      case Some(i) => Some(i + 1)
  }

  /** `rows[i]` is the first row whose id is `key`. */
  ghost predicate FirstWithId<P>(rows: seq<Row<P>>, key: Option<int>, i: int)
  {
    0 <= i < |rows| && key == Some(rows[i].id) && forall j :: 0 <= j < i ==> key != Some(rows[j].id)
  }

  /** `rows[i]` is the first row whose nameOf is strictly equal to `selected`. */
  ghost predicate FirstWithLabel<P>(rows: seq<Row<P>>, nameOf: P -> string, selected: Coercion.Value, i: int)
  {
    0 <= i < |rows| && selected == Coercion.Str(nameOf(rows[i].fields))
    && forall j :: 0 <= j < i ==> selected != Coercion.Str(nameOf(rows[j].fields))
  }

  ghost predicate UniqueLabels<P>(rows: seq<Row<P>>, nameOf: P -> string)
  {
    forall i, j :: 0 <= i < j < |rows| ==> nameOf(rows[i].fields) != nameOf(rows[j].fields)
  }

  /** Display of a foreign key: `rows.find(r => r.id === key)?.nameOf`. */
  function LabelOf<P>(rows: seq<Row<P>>, nameOf: P -> string, key: Option<int>): (r: Option<string>)
    ensures r.None? <==> forall i :: 0 <= i < |rows| ==> key != Some(rows[i].id)
    ensures r.Some? ==> exists i :: FirstWithId(rows, key, i) && r.value == nameOf(rows[i].fields)
  {
    match FirstIndex(rows, (x: Row<P>) => key == Some(x.id))
    case None => None
    case Some(i) =>
      assert FirstWithId(rows, key, i);
      Some(nameOf(rows[i].fields))
  }

  /** Submission of a foreign key: `rows.find(r => r.nameOf === selected)?.id`. */
  function IdOf<P>(rows: seq<Row<P>>, nameOf: P -> string, selected: Coercion.Value): (r: Option<int>)
    ensures r.None? <==> forall i :: 0 <= i < |rows| ==> selected != Coercion.Str(nameOf(rows[i].fields))
    ensures r.Some? ==> exists i :: FirstWithLabel(rows, nameOf, selected, i) && r.value == rows[i].id
  {
    match FirstIndex(rows, (x: Row<P>) => selected == Coercion.Str(nameOf(x.fields)))
    case None => None
    case Some(i) =>
      assert FirstWithLabel(rows, nameOf, selected, i);
      Some(rows[i].id)
  }

  /** With unique names, the name shown for an id resolves back to that id. */
  lemma LabelThenId<P>(rows: seq<Row<P>>, nameOf: P -> string, k: int)
    requires UniqueLabels(rows, nameOf)
    requires LabelOf(rows, nameOf, Some(k)).Some?
    ensures IdOf(rows, nameOf, Coercion.Str(LabelOf(rows, nameOf, Some(k)).value)) == Some(k)
  {
    var name := LabelOf(rows, nameOf, Some(k)).value;
    var i :| FirstWithId(rows, Some(k), i) && name == nameOf(rows[i].fields);
    var r := IdOf(rows, nameOf, Coercion.Str(name));
    var j :| FirstWithLabel(rows, nameOf, Coercion.Str(name), j) && r.value == rows[j].id;
    assert i == j;
  }

  /** With unique ids, the id a name resolves to is displayed as that name. */
  lemma IdThenLabel<P>(rows: seq<Row<P>>, nameOf: P -> string, selected: Coercion.Value)
    requires UniqueIds(rows)
    requires IdOf(rows, nameOf, selected).Some?
    ensures selected.Str? && LabelOf(rows, nameOf, IdOf(rows, nameOf, selected)) == Some(selected.s)
  {
    var k := IdOf(rows, nameOf, selected).value;
    var j :| FirstWithLabel(rows, nameOf, selected, j) && k == rows[j].id;
    var name := LabelOf(rows, nameOf, Some(k)).value;
    var i :| FirstWithId(rows, Some(k), i) && name == nameOf(rows[i].fields);
    assert i == j;
  }
}
