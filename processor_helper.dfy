/**
 * The method filters of the annotation processor's helper: which of the
 * elements enclosed by a type are methods carrying all of, any of, or none
 * of a set of modifiers, and the variant driven by the annotation's own
 * `MethodModifier` list, where package-private access has no `Modifier`.
 *
 * Each filter is a loop appending to a list; each is proved equal to a
 * selection function, and the selection functions' properties are lemmas.
 */
module ProcessorHelper {
  import opened JavaModel
  import opened LangModel

  /** `Controllable.MethodModifier`: the access and abstractness choices of the annotation. */
  datatype MethodModifier = Public | Private | Protected | Package | Abstract

  /** `MethodModifier.getModifier()`: package-private access has no `Modifier` (it is `null`). */
  function ModifierOf(m: MethodModifier): (r: Nullable<Modifier>)
    ensures r.Null? <==> m == Package
    ensures r == NonNull(PUBLIC) <==> m == Public
    ensures r == NonNull(PRIVATE) <==> m == Private
    ensures r == NonNull(PROTECTED) <==> m == Protected
    ensures r == NonNull(ABSTRACT) <==> m == Abstract
  {
    match m
    case Public => NonNull(PUBLIC)
    case Private => NonNull(PRIVATE)
    case Protected => NonNull(PROTECTED)
    case Package => Null
    case Abstract => NonNull(ABSTRACT)
  }

  /** The access modifiers whose absence means package-private access. */
  const AllNonPackageAccessModifiers: seq<Modifier> := [PRIVATE, PROTECTED, PUBLIC]

  /** Some entry of `list` is among `modifiers`. */
  predicate Intersects(list: seq<Modifier>, modifiers: set<Modifier>)
  {
    exists i :: 0 <= i < |list| && list[i] in modifiers
  }

  /**
   * `Lists.newArrayList(list).removeAll(modifiers)`: the entries that stay,
   * and whether the list changed.
   */
  function RemoveAll(list: seq<Modifier>, modifiers: set<Modifier>): (r: (seq<Modifier>, bool))
    ensures r.1 <==> |r.0| < |list|
    ensures |r.0| <= |list|
  {
    if list == [] then ([], false)
    else
      var (left, changed) := RemoveAll(list[1..], modifiers);
      if list[0] in modifiers then (left, true)
      else ([list[0]] + left, changed)
  }

  /** `removeAll` keeps exactly the entries that are not among `modifiers`. */
  lemma {:induction false} RemoveAllKeepsTheOthers(list: seq<Modifier>, modifiers: set<Modifier>, m: Modifier)
    ensures m in RemoveAll(list, modifiers).0 <==> m in list && m !in modifiers
    decreases |list|
  {
    if list != [] {
      RemoveAllKeepsTheOthers(list[1..], modifiers, m);
      assert list == [list[0]] + list[1..];
    }
  }

  /** `removeAll` reports a change exactly when the two collections share an entry. */
  lemma {:induction false} RemoveAllChangesIffIntersects(list: seq<Modifier>, modifiers: set<Modifier>)
    ensures RemoveAll(list, modifiers).1 <==> Intersects(list, modifiers)
    decreases |list|
  {
    if list != [] {
      RemoveAllChangesIffIntersects(list[1..], modifiers);
      if Intersects(list[1..], modifiers) {
        var i :| 0 <= i < |list[1..]| && list[1..][i] in modifiers;
        assert list[i + 1] in modifiers;
      }
      if Intersects(list, modifiers) && list[0] !in modifiers {
        var i :| 0 <= i < |list| && list[i] in modifiers;
        assert list[1..][i - 1] in modifiers;
      }
    }
  }

  /** `containsAll`: every entry of `list` is among `modifiers`. */
  predicate ContainsAll(modifiers: set<Modifier>, list: seq<Modifier>)
  {
    forall i :: 0 <= i < |list| ==> list[i] in modifiers
  }

  /** Which methods a filter keeps, judged on their modifiers. */
  datatype Criterion =
    | AllOf(required: seq<Modifier>)
    | AnyOf(wanted: seq<Modifier>)
    | NoneOf(unwanted: seq<Modifier>)

  predicate Matches(e: Element, c: Criterion)
  {
    match c
    case AllOf(required) => ContainsAll(e.modifiers, required)
    case AnyOf(wanted) => Intersects(wanted, e.modifiers)
    case NoneOf(unwanted) => !Intersects(unwanted, e.modifiers)
  }

  /** The methods of `enclosed` that match `c`, in their original order. */
  function Selected(enclosed: seq<Element>, c: Criterion): (r: seq<Element>)
    ensures |r| <= |enclosed|
    decreases |enclosed|
  {
    if enclosed == [] then []
    else
      var last := enclosed[|enclosed| - 1];
      Selected(enclosed[..|enclosed| - 1], c) + (if IsMethod(last) && Matches(last, c) then [last] else [])
  }

  /** An element is selected exactly when it is an enclosed method that matches. */
  lemma {:induction false} SelectedMembership(enclosed: seq<Element>, c: Criterion, e: Element)
    ensures e in Selected(enclosed, c) <==> e in enclosed && IsMethod(e) && Matches(e, c)
    decreases |enclosed|
  {
    if enclosed != [] {
      var init := enclosed[..|enclosed| - 1];
      SelectedMembership(init, c, e);
      assert enclosed == init + [enclosed[|enclosed| - 1]];
    }
  }

  /** Selection keeps the order of the enclosed elements: it distributes over concatenation. */
  lemma {:induction false} SelectedDistributes(a: seq<Element>, b: seq<Element>, c: Criterion)
    ensures Selected(a + b, c) == Selected(a, c) + Selected(b, c)
    decreases |b|
  {
    if b != [] {
      var b' := b[..|b| - 1];
      var last := b[|b| - 1];
      var tail := if IsMethod(last) && Matches(last, c) then [last] else [];
      SelectedDistributes(a, b', c);
      assert (a + b)[..|a + b| - 1] == a + b';
      assert (a + b)[|a + b| - 1] == last;
      assert Selected(a + b, c) == Selected(a + b', c) + tail;
      assert Selected(b, c) == Selected(b', c) + tail;
    } else {
      assert a + b == a;
    }
  }

  /** The methods of `classElement` carrying every one of the given modifiers. */
  method GetContainedMethodsWithAllModifiers(classElement: TypeElement, withMatchingModifiers: seq<Modifier>)
    returns (methods: seq<Element>)
    ensures methods == Selected(classElement.enclosedElements, AllOf(withMatchingModifiers))
  {
    var enclosed := classElement.enclosedElements;
    methods := [];
    for i := 0 to |enclosed|
      invariant methods == Selected(enclosed[..i], AllOf(withMatchingModifiers))
    {
      var e := enclosed[i];
      if e.kind == METHOD {
        if ContainsAll(e.modifiers, withMatchingModifiers) {
          methods := methods + [e];
        }
      }
      assert enclosed[..i + 1][..i] == enclosed[..i];
    }
    assert enclosed[..|enclosed|] == enclosed;
  }

  /** The methods of `classElement` carrying at least one of the given modifiers. */
  method GetContainedMethodsWithAnyModifiers(classElement: TypeElement, withMatchingModifiers: seq<Modifier>)
    returns (methods: seq<Element>)
    ensures methods == Selected(classElement.enclosedElements, AnyOf(withMatchingModifiers))
  {
    var enclosed := classElement.enclosedElements;
    methods := [];
    for i := 0 to |enclosed|
      invariant methods == Selected(enclosed[..i], AnyOf(withMatchingModifiers))
    {
      var e := enclosed[i];
      if e.kind == METHOD {
        RemoveAllChangesIffIntersects(withMatchingModifiers, e.modifiers);
        if RemoveAll(withMatchingModifiers, e.modifiers).1 {
          methods := methods + [e];
        }
      }
      assert enclosed[..i + 1][..i] == enclosed[..i];
    }
    assert enclosed[..|enclosed|] == enclosed;
  }

  /** The methods of `classElement` carrying none of the given modifiers. */
  method GetContainedMethodsWithoutAnyModifiers(classElement: TypeElement, withoutMatchingModifiers: seq<Modifier>)
    returns (methods: seq<Element>)
    ensures methods == Selected(classElement.enclosedElements, NoneOf(withoutMatchingModifiers))
  {
    var enclosed := classElement.enclosedElements;
    methods := [];
    for i := 0 to |enclosed|
      invariant methods == Selected(enclosed[..i], NoneOf(withoutMatchingModifiers))
    {
      var e := enclosed[i];
      if e.kind == METHOD {
        RemoveAllChangesIffIntersects(withoutMatchingModifiers, e.modifiers);
        if !RemoveAll(withoutMatchingModifiers, e.modifiers).1 {
          methods := methods + [e];
        }
      }
      assert enclosed[..i + 1][..i] == enclosed[..i];
    }
    assert enclosed[..|enclosed|] == enclosed;
  }

  /** With no required modifier every method is kept: the same list as excluding nothing. */
  lemma {:induction false} EmptyAllFilterKeepsEveryMethod(enclosed: seq<Element>)
    ensures Selected(enclosed, AllOf([])) == Selected(enclosed, NoneOf([]))
    decreases |enclosed|
  {
    if enclosed != [] {
      EmptyAllFilterKeepsEveryMethod(enclosed[..|enclosed| - 1]);
    }
  }

  /** With no wanted modifier no method is kept. */
  lemma {:induction false} EmptyAnyFilterKeepsNothing(enclosed: seq<Element>)
    ensures Selected(enclosed, AnyOf([])) == []
    decreases |enclosed|
  {
    if enclosed != [] {
      EmptyAnyFilterKeepsNothing(enclosed[..|enclosed| - 1]);
    }
  }

  /**
   * "With any" and "without any" of the same modifiers split the methods
   * between them: every method lands in exactly one of the two lists.
   */
  lemma {:induction false} AnyAndWithoutPartitionTheMethods(enclosed: seq<Element>, modifiers: seq<Modifier>)
    ensures multiset(Selected(enclosed, AnyOf(modifiers))) + multiset(Selected(enclosed, NoneOf(modifiers)))
            == multiset(Selected(enclosed, NoneOf([])))
    decreases |enclosed|
  {
    if enclosed != [] {
      AnyAndWithoutPartitionTheMethods(enclosed[..|enclosed| - 1], modifiers);
    }
  }

  /** `convertMethodModifiers` as a function: each entry's `Modifier`, dropping `Package`, in order. */
  function Converted(filter: seq<MethodModifier>): (r: seq<Modifier>)
    ensures |r| + multiset(filter)[Package] == |filter|
    decreases |filter|
  {
    if filter == [] then []
    else
      var last := filter[|filter| - 1];
      assert filter == filter[..|filter| - 1] + [last];
      Converted(filter[..|filter| - 1]) + (match ModifierOf(last) case NonNull(m) => [m] case Null => [])
  }

  /** Conversion keeps the filter's order: it distributes over concatenation. */
  lemma {:induction false} ConvertedDistributes(a: seq<MethodModifier>, b: seq<MethodModifier>)
    ensures Converted(a + b) == Converted(a) + Converted(b)
    decreases |b|
  {
    if b != [] {
      var b' := b[..|b| - 1];
      var last := b[|b| - 1];
      var tail := match ModifierOf(last) case NonNull(m) => [m] case Null => [];
      ConvertedDistributes(a, b');
      assert (a + b)[..|a + b| - 1] == a + b';
      assert (a + b)[|a + b| - 1] == last;
      assert Converted(a + b) == Converted(a + b') + tail;
      assert Converted(b) == Converted(b') + tail;
    } else {
      assert a + b == a;
    }
  }

  /** A modifier is in the converted list exactly when some non-`Package` entry stands for it. */
  lemma {:induction false} ConvertedMembership(filter: seq<MethodModifier>, m: Modifier)
    ensures m in Converted(filter) <==> exists i :: 0 <= i < |filter| && ModifierOf(filter[i]) == NonNull(m)
    decreases |filter|
  {
    if filter != [] {
      var init := filter[..|filter| - 1];
      ConvertedMembership(init, m);
      if exists i :: 0 <= i < |init| && ModifierOf(init[i]) == NonNull(m) {
        var i :| 0 <= i < |init| && ModifierOf(init[i]) == NonNull(m);
        assert filter[i] == init[i];
      }
      if exists i :: 0 <= i < |filter| && ModifierOf(filter[i]) == NonNull(m) {
        var i :| 0 <= i < |filter| && ModifierOf(filter[i]) == NonNull(m);
        if i < |init| {
          assert init[i] == filter[i];
        }
      }
    }
  }

  /** `convertMethodModifiers`: the loop that appends each non-null `Modifier`. */
  method ConvertMethodModifiers(withMatchingModifiers: seq<MethodModifier>) returns (modifiers: seq<Modifier>)
    ensures modifiers == Converted(withMatchingModifiers)
  {
    modifiers := [];
    for i := 0 to |withMatchingModifiers|
      invariant modifiers == Converted(withMatchingModifiers[..i])
    {
      var mod := ModifierOf(withMatchingModifiers[i]);
      if mod.NonNull? {
        modifiers := modifiers + [mod.get];
      }
      assert withMatchingModifiers[..i + 1][..i] == withMatchingModifiers[..i];
    }
    assert withMatchingModifiers[..|withMatchingModifiers|] == withMatchingModifiers;
  }

  /** The method has none of `public`, `protected`, `private`: it is package-private. */
  predicate IsPackagePrivate(e: Element)
  {
    !Intersects(AllNonPackageAccessModifiers, e.modifiers)
  }

  /**
   * How often one enclosed element is listed: once if it is a method with one
   * of the converted modifiers, and once more if `Package` was asked for and
   * it is a package-private method.
   */
  function Listings(e: Element, filter: seq<MethodModifier>): (r: seq<Element>)
    ensures |r| <= 2
    ensures !IsMethod(e) ==> r == []
  {
    (if IsMethod(e) && Intersects(Converted(filter), e.modifiers) then [e] else [])
    + (if IsMethod(e) && Package in filter && IsPackagePrivate(e) then [e] else [])
  }

  /** What `getContainedMethodsWithAnyMethodModifiers` returns: the listings of each element, in order. */
  function WithAnyMethodModifiers(enclosed: seq<Element>, filter: seq<MethodModifier>): (r: seq<Element>)
    ensures |r| <= 2 * |enclosed|
    decreases |enclosed|
  {
    if enclosed == [] then []
    else WithAnyMethodModifiers(enclosed[..|enclosed| - 1], filter) + Listings(enclosed[|enclosed| - 1], filter)
  }

  /** One more enclosed element adds its own listings at the end. */
  lemma WithAnyMethodModifiersStep(enclosed: seq<Element>, i: nat, filter: seq<MethodModifier>)
    requires i < |enclosed|
    ensures WithAnyMethodModifiers(enclosed[..i + 1], filter)
            == WithAnyMethodModifiers(enclosed[..i], filter) + Listings(enclosed[i], filter)
  {
    assert enclosed[..i + 1][..i] == enclosed[..i];
  }

  /**
   * One pass of the loop body: a method appended once for a matching converted
   * modifier and once more for a package-private match gets its listings.
   */
  lemma {:induction false} LoopBodyAppendsListings(before: seq<Element>, after: seq<Element>, e: Element,
                                                  filter: seq<MethodModifier>, normalLookup: bool, packageLookup: bool)
    requires IsMethod(e)
    requires normalLookup == RemoveAll(Converted(filter), e.modifiers).1
    requires packageLookup == (Package in filter && !RemoveAll(AllNonPackageAccessModifiers, e.modifiers).1)
    requires after == before + (if normalLookup then [e] else []) + (if packageLookup then [e] else [])
    ensures after == before + Listings(e, filter)
  {
    RemoveAllChangesIffIntersects(Converted(filter), e.modifiers);
    RemoveAllChangesIffIntersects(AllNonPackageAccessModifiers, e.modifiers);
  }

  /** `getContainedMethodsWithAnyMethodModifiers`. */
  method GetContainedMethodsWithAnyMethodModifiers(classElement: TypeElement, withMatchingModifiers: seq<MethodModifier>)
    returns (methods: seq<Element>)
    ensures methods == WithAnyMethodModifiers(classElement.enclosedElements, withMatchingModifiers)
  {
    var requiresPackageLookup := Package in withMatchingModifiers;
    var modifiersFilter := ConvertMethodModifiers(withMatchingModifiers);
    var enclosed := classElement.enclosedElements;
    methods := [];
    for i := 0 to |enclosed|
      invariant methods == WithAnyMethodModifiers(enclosed[..i], withMatchingModifiers)
    {
      var e := enclosed[i];
      ghost var before := methods;
      if e.kind == METHOD {
        var normalLookup := RemoveAll(modifiersFilter, e.modifiers).1;
        var packageLookup := requiresPackageLookup && !RemoveAll(AllNonPackageAccessModifiers, e.modifiers).1;
        if normalLookup {
          methods := methods + [e];
        }
        ghost var middle := methods;
        if packageLookup {
          methods := methods + [e];
        }
        assert methods == middle + (if packageLookup then [e] else []);
        LoopBodyAppendsListings(before, methods, e, withMatchingModifiers, normalLookup, packageLookup);
      }
      WithAnyMethodModifiersStep(enclosed, i, withMatchingModifiers);
    }
    assert enclosed[..|enclosed|] == enclosed;
  }

  /** A method is returned exactly when it has a converted modifier, or `Package` was asked for and it is package-private. */
  lemma {:induction false} AnyMethodModifiersMembership(enclosed: seq<Element>, filter: seq<MethodModifier>, e: Element)
    ensures e in WithAnyMethodModifiers(enclosed, filter) <==>
            e in enclosed && IsMethod(e) &&
            (Intersects(Converted(filter), e.modifiers) || (Package in filter && IsPackagePrivate(e)))
    decreases |enclosed|
  {
    if enclosed != [] {
      var init := enclosed[..|enclosed| - 1];
      AnyMethodModifiersMembership(init, filter, e);
      assert enclosed == init + [enclosed[|enclosed| - 1]];
    }
  }

  /** Without `Package` in the filter this is the "any modifiers" filter on the converted list. */
  lemma {:induction false} WithoutPackageIsAnyOfConverted(enclosed: seq<Element>, filter: seq<MethodModifier>)
    requires Package !in filter
    ensures WithAnyMethodModifiers(enclosed, filter) == Selected(enclosed, AnyOf(Converted(filter)))
    decreases |enclosed|
  {
    if enclosed != [] {
      WithoutPackageIsAnyOfConverted(enclosed[..|enclosed| - 1], filter);
    }
  }

  /** An abstract, package-private method matched by `[Abstract, Package]` is returned twice. */
  lemma AbstractPackagePrivateMethodIsListedTwice(m: Element)
    requires IsMethod(m) && m.modifiers == {ABSTRACT}
    ensures WithAnyMethodModifiers([m], [Abstract, Package]) == [m, m]
  {
    assert Converted([Abstract, Package]) == [ABSTRACT] by {
      assert [Abstract, Package][..1] == [Abstract];
      assert [Abstract][..0] == [];
    }
    assert Intersects([ABSTRACT], m.modifiers) by {
      assert [ABSTRACT][0] in m.modifiers;
    }
    assert [m][..0] == [];
  }

  /** A filter of just `Public` lists exactly the enclosed methods declared `public`. */
  lemma PublicFilterSelectsPublicMethods(enclosed: seq<Element>, e: Element)
    ensures e in WithAnyMethodModifiers(enclosed, [Public]) <==> e in enclosed && IsMethod(e) && PUBLIC in e.modifiers
  {
    assert Converted([Public]) == [PUBLIC] by {
      assert [Public][..0] == [];
    }
    AnyMethodModifiersMembership(enclosed, [Public], e);
    if PUBLIC in e.modifiers {
      assert [PUBLIC][0] in e.modifiers;
    }
  }
}
