/**
 * Turning the user's `--models` selector into the list of registered-model
 * names to export (`_export_models`, lines 23-29 of
 * mlflow_export_import/bulk/export_models.py). The registry listing
 * (`client.list_registered_models()`) is an input: the names in the order
 * the server lists them.
 */
module Selector {
  import opened Text

  /** The selector that stands for every registered model. */
  const AllSelector: string := "all"

  /** A selector ending in `*` is a name prefix: `models.endswith("*")`. */
  predicate IsPrefixSelector(selector: string): (r: bool)
    ensures r <==> |selector| > 0 && selector[|selector| - 1] == '*'
  {
    EndsWith(selector, "*")
  }

  /** The names of `names` that start with `prefix`, in listing order. */
  function WithPrefix(names: seq<string>, prefix: string): (r: seq<string>)
    ensures |r| <= |names|
    ensures forall x :: x in r <==> x in names && StartsWith(x, prefix)
  {
    if names == [] then []
    else (if StartsWith(names[0], prefix) then [names[0]] else []) + WithPrefix(names[1..], prefix)
  }

  /** The list of model names the selector stands for. */
  function Resolve(selector: string, registered: seq<string>): (models: seq<string>)
    ensures selector == AllSelector ==> models == registered
    ensures selector != AllSelector && IsPrefixSelector(selector) ==>
              |models| <= |registered| &&
              forall x :: x in models <==> x in registered && StartsWith(x, selector[..|selector| - 1])
    ensures selector != AllSelector && !IsPrefixSelector(selector) ==>
              |models| == Count(selector, ',') + 1 && Join(models, ',') == selector
  {
    if selector == AllSelector then registered
    else if IsPrefixSelector(selector) then WithPrefix(registered, selector[..|selector| - 1])
    else JoinSplit(selector, ','); Split(selector, ',')
  }

  /** `sub` is `s` with some elements dropped and the rest in their original order. */
  predicate IsSubsequence<T(==)>(sub: seq<T>, s: seq<T>) {
    if sub == [] then true
    else if s == [] then false
    else if sub[0] == s[0] then IsSubsequence(sub[1..], s[1..])
    else IsSubsequence(sub, s[1..])
  }

  /** Filtering keeps the listing order. */
  lemma {:induction false} WithPrefixIsSubsequence(names: seq<string>, prefix: string)
    ensures IsSubsequence(WithPrefix(names, prefix), names)
  {
    if names != [] {
      WithPrefixIsSubsequence(names[1..], prefix);
      var r := WithPrefix(names, prefix);
      if StartsWith(names[0], prefix) {
        assert r[1..] == WithPrefix(names[1..], prefix);
      } else {
        assert r == WithPrefix(names[1..], prefix);
        if r != [] {
          assert r[0] in r && StartsWith(r[0], prefix);
        }
      }
    }
  }

  /** Filtering keeps every copy of a matching name and adds nothing. */
  lemma {:induction false} WithPrefixCounts(names: seq<string>, prefix: string)
    ensures forall x :: multiset(WithPrefix(names, prefix))[x] ==
                        if StartsWith(x, prefix) then multiset(names)[x] else 0
  {
    if names != [] {
      WithPrefixCounts(names[1..], prefix);
      assert names == [names[0]] + names[1..];
    }
  }

  /** Filtering splits over concatenation: each part keeps its place. */
  lemma {:induction false} WithPrefixConcat(a: seq<string>, b: seq<string>, prefix: string)
    ensures WithPrefix(a + b, prefix) == WithPrefix(a, prefix) + WithPrefix(b, prefix)
  {
    if a != [] {
      WithPrefixConcat(a[1..], b, prefix);
      assert (a + b)[0] == a[0] && (a + b)[1..] == a[1..] + b;
      var head := if StartsWith(a[0], prefix) then [a[0]] else [];
      calc {
        WithPrefix(a + b, prefix);
        head + WithPrefix(a[1..] + b, prefix);
        head + (WithPrefix(a[1..], prefix) + WithPrefix(b, prefix));
        (head + WithPrefix(a[1..], prefix)) + WithPrefix(b, prefix);
      }
    } else {
      assert a + b == b;
    }
  }

  /** Every name starts with the empty prefix. */
  lemma {:induction false} WithEmptyPrefix(names: seq<string>)
    ensures WithPrefix(names, []) == names
  {
    if names != [] {
      WithEmptyPrefix(names[1..]);
      assert names[0][..0] == [];
    }
  }

  /** `"all"` is tested first: it gives the registry listing itself, never a literal name. */
  lemma ResolveAll(registered: seq<string>)
    ensures Resolve(AllSelector, registered) == registered
  {
  }

  /**
   * A selector ending in `*` gives exactly the listed names that start with
   * the text before the `*`: in listing order, every copy kept, nothing added.
   */
  lemma ResolvePrefix(selector: string, registered: seq<string>)
    requires selector != AllSelector && IsPrefixSelector(selector)
    ensures var models := Resolve(selector, registered);
            var prefix := selector[..|selector| - 1];
            IsSubsequence(models, registered) &&
            (forall x :: multiset(models)[x] == if StartsWith(x, prefix) then multiset(registered)[x] else 0) &&
            (forall x :: x in models <==> x in registered && StartsWith(x, prefix))
  {
    var prefix := selector[..|selector| - 1];
    WithPrefixIsSubsequence(registered, prefix);
    WithPrefixCounts(registered, prefix);
  }

  /** `"*"` alone selects every listed name. */
  lemma ResolveStarAlone(registered: seq<string>)
    ensures Resolve("*", registered) == registered
  {
    WithEmptyPrefix(registered);
  }

  /**
   * Any other selector is split on `,`: one name more than there are commas,
   * no comma inside a name, joining them back gives the selector, and no name
   * is dropped, merged or checked against the registry.
   */
  lemma ResolveCommaList(selector: string, registered: seq<string>)
    requires selector != AllSelector && !IsPrefixSelector(selector)
    ensures var models := Resolve(selector, registered);
            |models| == Count(selector, ',') + 1 &&
            (forall i :: 0 <= i < |models| ==> ',' !in models[i]) &&
            Join(models, ',') == selector
  {
    JoinSplit(selector, ',');
  }

  /**
   * Conversely, a comma-separated list of literal names resolves to exactly
   * those names, in that order and with repeats kept, whatever the registry holds.
   */
  lemma ResolveLiteralNames(names: seq<string>, registered: seq<string>)
    requires |names| > 0
    requires forall i :: 0 <= i < |names| ==> ',' !in names[i]
    requires Join(names, ',') != AllSelector && !IsPrefixSelector(Join(names, ','))
    ensures Resolve(Join(names, ','), registered) == names
  {
    SplitJoin(names, ',');
  }
}
