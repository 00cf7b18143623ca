/**
 * The target matcher of `verify`: the jsonpath query
 * `$.items[*].properties[*][?(@.value ? @.value == '<target>' : @.indexOf('<target>') != -1)]`
 * written as an explicit walk over items, then properties, then values,
 * followed by the extraction of each match's property name from its path.
 */
module Matcher {
  import opened Wrappers
  import opened Strings
  import opened Mf2

  /**
   * The query's filter applied to one property value. A value whose `value`
   * field is truthy (present and non-empty) matches when that field equals
   * the target; a string matches when the target occurs in it. An object
   * without a truthy `value` has no `indexOf` and is taken as not matching.
   */
  predicate ValueMatches(v: Value, target: string): (b: bool)
    ensures b <==>
              (v.Text? && exists i :: OccursAt(v.text, target, i))
              || (v.Embedded? && v.value == Some(target) && target != "")
  {
    match v
    case Text(s) => IndexOf(s, target) != -1
    case Embedded(value, _, _) =>
      if value.Some? && value.value != "" then value.value == target
      else false
  }

  /** The top-level property value at `p` passes the query's filter. */
  predicate Mentions(doc: Document, target: string, p: Pos) {
    InDoc(doc, p) && ValueMatches(ValueAt(doc, p), target)
  }

  /** The matching positions among the values of property `p` of item `i`, from index `j` on. */
  function ValuesFrom(doc: Document, target: string, i: nat, p: nat, j: nat): (r: seq<Pos>)
    requires i < |doc.items| && p < |doc.items[i].properties|
    decreases |doc.items[i].properties[p].values| - j
    ensures Increasing(r)
    ensures forall k :: 0 <= k < |r| ==>
              Mentions(doc, target, r[k]) && r[k].item == i && r[k].prop == p && r[k].index >= j
    ensures forall q :: Mentions(doc, target, q) && q.item == i && q.prop == p && q.index >= j ==> q in r
  {
    var values := doc.items[i].properties[p].values;
    if j >= |values| then []
    else
      var rest := ValuesFrom(doc, target, i, p, j + 1);
      if ValueMatches(values[j], target) then [Pos(i, p, j)] + rest else rest
  }

  /** The matching positions among the properties of item `i`, from property `p` on. */
  function PropertiesFrom(doc: Document, target: string, i: nat, p: nat): (r: seq<Pos>)
    requires i < |doc.items|
    decreases |doc.items[i].properties| - p
    ensures Increasing(r)
    ensures forall k :: 0 <= k < |r| ==> Mentions(doc, target, r[k]) && r[k].item == i && r[k].prop >= p
    ensures forall q :: Mentions(doc, target, q) && q.item == i && q.prop >= p ==> q in r
  {
    if p >= |doc.items[i].properties| then []
    else ValuesFrom(doc, target, i, p, 0) + PropertiesFrom(doc, target, i, p + 1)
  }

  /** The matching positions among the top-level items, from item `i` on. */
  function ItemsFrom(doc: Document, target: string, i: nat): (r: seq<Pos>)
    decreases |doc.items| - i
    ensures Increasing(r)
    ensures forall k :: 0 <= k < |r| ==> Mentions(doc, target, r[k]) && r[k].item >= i
    ensures forall q :: Mentions(doc, target, q) && q.item >= i ==> q in r
  {
    if i >= |doc.items| then []
    else PropertiesFrom(doc, target, i, 0) + ItemsFrom(doc, target, i + 1)
  }

  /**
   * The positions the query selects, in its traversal order: every
   * top-level value that passes the filter, each once, in item, property,
   * value order.
   */
  function MatchPositions(doc: Document, target: string): (r: seq<Pos>)
    ensures Increasing(r)
    ensures forall k :: 0 <= k < |r| ==> Mentions(doc, target, r[k])
    ensures forall q :: Mentions(doc, target, q) ==> q in r
  {
    ItemsFrom(doc, target, 0)
  }

  /** Two increasing sequences with the same elements are the same sequence. */
  lemma {:induction false} IncreasingUnique(a: seq<Pos>, b: seq<Pos>)
    requires Increasing(a) && Increasing(b)
    requires forall q :: q in a <==> q in b
    ensures a == b
    decreases |a|
  {
    assert a != [] ==> a[0] in b;
    assert b != [] ==> b[0] in a;
    if a != [] && b != [] {
      var l :| 0 <= l < |b| && b[l] == a[0];
      var m :| 0 <= m < |a| && a[m] == b[0];
      assert l == 0 by {
        assert l > 0 ==> Before(b[0], b[l]);
        assert m > 0 ==> Before(a[0], a[m]);
      }
      forall q ensures q in a[1..] <==> q in b[1..] {
        if q in a[1..] {
          var x :| 0 < x < |a| && a[x] == q;
          assert Before(a[0], a[x]);
          assert q in b;
        }
        if q in b[1..] {
          var y :| 0 < y < |b| && b[y] == q;
          assert Before(b[0], b[y]);
          assert q in a;
        }
      }
      IncreasingUnique(a[1..], b[1..]);
      assert a == [a[0]] + a[1..] && b == [b[0]] + b[1..];
    }
  }

  /**
   * The traversal order is the only one possible: any increasing list of
   * exactly the matching positions is the query's result.
   */
  lemma MatchPositionsDetermined(doc: Document, target: string, r: seq<Pos>)
    requires Increasing(r)
    requires forall q :: q in r <==> Mentions(doc, target, q)
    ensures r == MatchPositions(doc, target)
  {
    var m := MatchPositions(doc, target);
    forall q ensures q in r <==> q in m {
      if q in m {
        var k :| 0 <= k < |m| && m[k] == q;
        assert Mentions(doc, target, m[k]);
      }
    }
    IncreasingUnique(r, m);
  }

  /** An element of a jsonpath path: a member name or an array index. */
  datatype PathElem = Key(key: string) | Index(index: nat)

  /** A node as `jpath.nodes` returns it: its path from the root, and its value. */
  datatype Node = Node(path: seq<PathElem>, value: Value)

  /**
   * `['$', 'items', i, 'properties', name, j]`, the path of a top-level
   * property value: the element read back after `'properties'` is the name
   * of the value's property.
   */
  function PathOf(doc: Document, p: Pos): (r: seq<PathElem>)
    requires InDoc(doc, p)
    ensures HasNameAfterProperties(r) && NameInPath(r) == PropertyAt(doc, p).name
  {
    var r := [Key("$"), Key("items"), Index(p.item), Key("properties"), Key(PropertyAt(doc, p).name), Index(p.index)];
    assert r[0] != Key("properties") && r[1] != Key("properties") && r[2] != Key("properties");
    assert r[3] == Key("properties");
    r
  }

  /**
   * `jpath.nodes(mfData, query)`: the selected values with their paths, in
   * traversal order; every value passes the filter and its path names its
   * property.
   */
  function QueryNodes(doc: Document, target: string): (r: seq<Node>)
    ensures |r| == |MatchPositions(doc, target)|
    ensures forall k :: 0 <= k < |r| ==>
              && r[k].value == ValueAt(doc, MatchPositions(doc, target)[k])
              && ValueMatches(r[k].value, target)
              && HasNameAfterProperties(r[k].path)
              && NameInPath(r[k].path) == PropertyAt(doc, MatchPositions(doc, target)[k]).name
  {
    var ps := MatchPositions(doc, target);
    seq(|ps|, k requires 0 <= k < |ps| => Node(PathOf(doc, ps[k]), ValueAt(doc, ps[k])))
  }

  /** `path.indexOf(e)`: the first index holding `e`, or -1. */
  function FirstIndexOf(path: seq<PathElem>, e: PathElem): (r: int)
    ensures -1 <= r < |path|
    ensures r >= 0 ==> path[r] == e && forall k :: 0 <= k < r ==> path[k] != e
    ensures r == -1 ==> forall k :: 0 <= k < |path| ==> path[k] != e
  {
    if |path| == 0 then -1
    else if path[0] == e then 0
    else
      var r := FirstIndexOf(path[1..], e);
      if r == -1 then -1 else r + 1
  }

  /** The path has a member name right after its first `'properties'` element. */
  predicate HasNameAfterProperties(path: seq<PathElem>) {
    var k := FirstIndexOf(path, Key("properties")) + 1;
    k < |path| && path[k].Key?
  }

  /**
   * `match.path[match.path.indexOf('properties') + 1]`: the member name
   * right after the first `'properties'`, or, when there is none, the first
   * element (`indexOf` gives -1, and -1 + 1 is 0).
   */
  function NameInPath(path: seq<PathElem>): (r: string)
    requires HasNameAfterProperties(path)
    ensures Key(r) in path
    ensures Key("properties") !in path ==> path[0] == Key(r)
    ensures Key("properties") in path ==>
              exists k :: 0 <= k < |path| - 1 && path[k] == Key("properties") && path[k + 1] == Key(r)
                          && Key("properties") !in path[..k]
  {
    var k := FirstIndexOf(path, Key("properties"));
    assert k >= 0 ==> Key("properties") !in path[..k];
    path[k + 1].key
  }

  /**
   * The `matches` of `verify`: the property name of every selected value,
   * in traversal order, repeated when several values of one property match.
   */
  function MatchedNames(doc: Document, target: string): (names: seq<string>)
    ensures |names| == |MatchPositions(doc, target)|
    ensures forall k :: 0 <= k < |names| ==> names[k] == PropertyAt(doc, MatchPositions(doc, target)[k]).name
  {
    var nodes := QueryNodes(doc, target);
    seq(|nodes|, k requires 0 <= k < |nodes| => NameInPath(nodes[k].path))
  }

  /** A string value equal to the target is always matched. */
  lemma TextEqualToTargetMatches(target: string)
    ensures ValueMatches(Text(target), target)
  {
    assert OccursAt(target, target, 0);
  }

  /**
   * Matching is by substring: any string that contains the target matches,
   * including one where the target is only part of a longer URL.
   */
  lemma TextContainingTargetMatches(before: string, target: string, after: string)
    ensures ValueMatches(Text(before + target + after), target)
  {
    var s := before + target + after;
    assert s[|before|..|before| + |target|] == target;
    assert OccursAt(s, target, |before|);
  }

  /** A value mentioned anywhere at top level has its property name among the matched names. */
  lemma MentionIsNamed(doc: Document, target: string, q: Pos)
    requires Mentions(doc, target, q)
    ensures PropertyAt(doc, q).name in MatchedNames(doc, target)
  {
    var ps := MatchPositions(doc, target);
    var k :| 0 <= k < |ps| && ps[k] == q;
    assert MatchedNames(doc, target)[k] == PropertyAt(doc, q).name;
  }

  /**
   * Names are not de-duplicated: two matching values of one property give
   * two entries with that property's name.
   */
  lemma DuplicatesKept(doc: Document, target: string, i: nat, p: nat, j1: nat, j2: nat)
    requires j1 < j2
    requires Mentions(doc, target, Pos(i, p, j1)) && Mentions(doc, target, Pos(i, p, j2))
    ensures exists k1, k2 :: 0 <= k1 < k2 < |MatchedNames(doc, target)|
              && MatchedNames(doc, target)[k1] == doc.items[i].properties[p].name
              && MatchedNames(doc, target)[k2] == doc.items[i].properties[p].name
  {
    var ps := MatchPositions(doc, target);
    var names := MatchedNames(doc, target);
    var k1 :| 0 <= k1 < |ps| && ps[k1] == Pos(i, p, j1);
    var k2 :| 0 <= k2 < |ps| && ps[k2] == Pos(i, p, j2);
    assert k1 != k2;
    assert k1 < k2 by {
      assert k2 < k1 ==> Before(ps[k2], ps[k1]);
    }
    assert names[k1] == doc.items[i].properties[p].name && names[k2] == doc.items[i].properties[p].name;
  }

}
