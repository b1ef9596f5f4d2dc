/**
 * The part of an lxml element tree the client relies on: a named element
 * with optional text, attributes and an ordered list of children, and the
 * child-path selections the code evaluates with `find` and XPath.
 * Namespaces, tails and mixed content are not represented.
 */
module Xml {
  import opened Wrappers

  datatype Attr = Attr(key: string, value: string)

  datatype Element = Element(name: string, text: Option<string>, attrs: seq<Attr>, children: seq<Element>)

  /** The element carries a non-empty text. */
  predicate HasText(e: Element) {
    e.text.Some? && e.text.value != ""
  }

  /** What XPath `text()` yields for one element: its text, unless absent or empty. */
  function TextNodes(e: Element): (texts: seq<string>) {
    if HasText(e) then [e.text.value] else []
  }

  /** The text nodes of a list of elements, in document order. */
  function TextsOf(es: seq<Element>): (texts: seq<string>) {
    if es == [] then [] else TextNodes(es[0]) + TextsOf(es[1..])
  }

  /** The elements of `es` named `n`, in order. */
  function Named(es: seq<Element>, n: string): (r: seq<Element>)
    ensures |r| <= |es|
  {
    if es == [] then [] else (if es[0].name == n then [es[0]] else []) + Named(es[1..], n)
  }

  /** The elements of `es` not named `n`, in order. */
  function Others(es: seq<Element>, n: string): (r: seq<Element>)
    ensures |r| <= |es|
  {
    if es == [] then [] else (if es[0].name == n then [] else [es[0]]) + Others(es[1..], n)
  }

  /** All children of the elements of `es`, in document order. */
  function ChildrenOf(es: seq<Element>): (children: seq<Element>) {
    if es == [] then [] else es[0].children + ChildrenOf(es[1..])
  }

  /**
   * An absolute or relative child path such as `netapp/results/records`:
   * `cands` are the candidates for the first step.
   */
  function Locate(cands: seq<Element>, path: seq<string>): (found: seq<Element>)
    decreases |path|
  {
    if path == [] then cands
    else if |path| == 1 then Named(cands, path[0])
    else Locate(ChildrenOf(Named(cands, path[0])), path[1..])
  }

  /** `path/text()` evaluated from `cands`. */
  function TextAt(cands: seq<Element>, path: seq<string>): (texts: seq<string>) {
    TextsOf(Locate(cands, path))
  }

  /** `find(n)`: the index of the first child named `n`. */
  function FirstNamed(es: seq<Element>, n: string): (r: Option<nat>)
    ensures r.Some? ==> r.value < |es| && es[r.value].name == n
    ensures r.Some? ==> forall j :: 0 <= j < r.value ==> es[j].name != n
    ensures r.None? ==> forall j :: 0 <= j < |es| ==> es[j].name != n
  {
    if es == [] then None
    else if es[0].name == n then Some(0)
    else match FirstNamed(es[1..], n)
      case None => None
      case Some(i) => Some(i + 1)
  }

  /** The children without the one at `i`: those before it stay in place, those after it move up one place. */
  function RemoveAt(es: seq<Element>, i: nat): (rest: seq<Element>)
    requires i < |es|
    ensures |rest| == |es| - 1
    ensures forall j :: 0 <= j < i ==> rest[j] == es[j]
    ensures forall j :: i <= j < |rest| ==> rest[j] == es[j + 1]
  {
    es[..i] + es[i + 1..]
  }

  lemma {:induction false} NamedAppend(a: seq<Element>, b: seq<Element>, n: string)
    ensures Named(a + b, n) == Named(a, n) + Named(b, n)
  {
    if a == [] {
      assert a + b == b;
    } else {
      var head := if a[0].name == n then [a[0]] else [];
      assert (a + b)[0] == a[0] && (a + b)[1..] == a[1..] + b;
      NamedAppend(a[1..], b, n);
      calc {
        Named(a + b, n);
        head + Named(a[1..] + b, n);
        head + (Named(a[1..], n) + Named(b, n));
        (head + Named(a[1..], n)) + Named(b, n);
      }
    }
  }

  lemma {:induction false} OthersAppend(a: seq<Element>, b: seq<Element>, n: string)
    ensures Others(a + b, n) == Others(a, n) + Others(b, n)
  {
    if a == [] {
      assert a + b == b;
    } else {
      var head := if a[0].name == n then [] else [a[0]];
      assert (a + b)[0] == a[0] && (a + b)[1..] == a[1..] + b;
      OthersAppend(a[1..], b, n);
      calc {
        Others(a + b, n);
        head + Others(a[1..] + b, n);
        head + (Others(a[1..], n) + Others(b, n));
        (head + Others(a[1..], n)) + Others(b, n);
      }
    }
  }

  lemma {:induction false} NamedNone(es: seq<Element>, n: string)
    requires forall j :: 0 <= j < |es| ==> es[j].name != n
    ensures Named(es, n) == [] && Others(es, n) == es
  {
    if es != [] {
      NamedNone(es[1..], n);
    }
  }

  /**
   * When only the i-th element is named `n`, `find(n)` returns it and
   * selecting `n` yields it alone.
   */
  lemma NamedOnly(es: seq<Element>, i: nat, n: string)
    requires i < |es| && es[i].name == n
    requires forall j :: 0 <= j < |es| && j != i ==> es[j].name != n
    ensures FirstNamed(es, n) == Some(i)
    ensures Named(es, n) == [es[i]]
  {
    var pre, post := es[..i], es[i + 1..];
    assert es == pre + [es[i]] + post;
    NamedAppend(pre + [es[i]], post, n);
    NamedAppend(pre, [es[i]], n);
    NamedNone(pre, n);
    NamedNone(post, n) by {
      forall j | 0 <= j < |post|
        ensures post[j].name != n
      {
        assert post[j] == es[i + 1 + j];
      }
    }
    assert [es[i]][1..] == [];
  }

  /** Selecting `n` from children whose first `n` is at `i`: that child, then the rest without it. */
  lemma NamedAtFirst(es: seq<Element>, i: nat, n: string)
    requires i < |es| && es[i].name == n
    requires forall j :: 0 <= j < i ==> es[j].name != n
    ensures Named(es, n) == [es[i]] + Named(RemoveAt(es, i), n)
  {
    var before, after := es[..i], es[i + 1..];
    assert es == before + ([es[i]] + after);
    assert RemoveAt(es, i) == before + after;
    NamedNone(before, n);
    NamedAppend(before, [es[i]] + after, n);
    NamedAppend([es[i]], after, n);
    NamedAppend(before, after, n);
    assert Named([es[i]], n) == [es[i]];
  }

  /** Removing a child named `n` leaves the other children as they were. */
  lemma OthersWithout(es: seq<Element>, i: nat, n: string)
    requires i < |es| && es[i].name == n
    ensures Others(RemoveAt(es, i), n) == Others(es, n)
  {
    var before, after := es[..i], es[i + 1..];
    assert es == before + ([es[i]] + after);
    assert RemoveAt(es, i) == before + after;
    OthersAppend(before, [es[i]] + after, n);
    OthersAppend([es[i]], after, n);
    OthersAppend(before, after, n);
    assert Others([es[i]], n) == [];
  }

  /**
   * Removing the first child named `n` drops exactly the first element of
   * `Named(es, n)` and keeps every other child in its relative order.
   */
  lemma RemoveFirstNamed(es: seq<Element>, n: string)
    ensures FirstNamed(es, n).None? ==> Named(es, n) == []
    ensures FirstNamed(es, n).Some? ==>
      && Named(es, n) != []
      && Named(RemoveAt(es, FirstNamed(es, n).value), n) == Named(es, n)[1..]
      && Others(RemoveAt(es, FirstNamed(es, n).value), n) == Others(es, n)
  {
    match FirstNamed(es, n)
    case None =>
      NamedNone(es, n);
    case Some(i) =>
      NamedAtFirst(es, i, n);
      OthersWithout(es, i, n);
      assert ([es[i]] + Named(RemoveAt(es, i), n))[1..] == Named(RemoveAt(es, i), n);
  }

  /** `es[i]` is the first element of `es` named `n` that carries text. */
  predicate FirstWithText(es: seq<Element>, n: string, i: int) {
    && 0 <= i < |es| && es[i].name == n && HasText(es[i])
    && forall j :: 0 <= j < i ==> !(es[j].name == n && HasText(es[j]))
  }

  /** Past a first element without a text named `n`, positions shift by one. */
  lemma FirstWithTextShift(es: seq<Element>, n: string, i: int)
    requires es != [] && !(es[0].name == n && HasText(es[0]))
    requires FirstWithText(es[1..], n, i)
    ensures FirstWithText(es, n, i + 1)
  {
    forall j | 0 <= j < i + 1
      ensures !(es[j].name == n && HasText(es[j]))
    {
      if j > 0 {
        assert es[j] == es[1..][j - 1];
      }
    }
  }

  /** The first text node of `Named(es, n)` is the text of the first child named `n` that has text. */
  lemma {:induction false} FirstText(es: seq<Element>, n: string)
    ensures TextsOf(Named(es, n)) != [] <==> exists i :: 0 <= i < |es| && es[i].name == n && HasText(es[i])
    ensures TextsOf(Named(es, n)) != [] ==>
      exists i :: FirstWithText(es, n, i) && es[i].text.value == TextsOf(Named(es, n))[0]
  {
    if es != [] {
      FirstText(es[1..], n);
      var head := if es[0].name == n then [es[0]] else [];
      TextsAppend(head, Named(es[1..], n));
      if es[0].name == n && HasText(es[0]) {
        assert FirstWithText(es, n, 0);
      } else {
        assert TextsOf(head) == [];
        assert TextsOf(Named(es, n)) == TextsOf(Named(es[1..], n));
        if TextsOf(Named(es, n)) != [] {
          var i :| FirstWithText(es[1..], n, i) && es[1..][i].text.value == TextsOf(Named(es[1..], n))[0];
          FirstWithTextShift(es, n, i);
          assert es[i + 1] == es[1..][i];
        }
        if exists i :: 0 <= i < |es| && es[i].name == n && HasText(es[i]) {
          var i :| 0 <= i < |es| && es[i].name == n && HasText(es[i]);
          assert i > 0 && es[1..][i - 1] == es[i];
        }
      }
    }
  }

  lemma {:induction false} TextsAppend(a: seq<Element>, b: seq<Element>)
    ensures TextsOf(a + b) == TextsOf(a) + TextsOf(b)
  {
    if a == [] {
      assert a + b == b;
    } else {
      assert (a + b)[0] == a[0] && (a + b)[1..] == a[1..] + b;
      TextsAppend(a[1..], b);
    }
  }
}
