/**
 * The class-level state of Active Record's read-only attribute mechanism,
 * as a value, and the rules that `attr_readonly`, `readonly_attributes`,
 * `readonly_attribute?`, the generated `"#{attribute}="` setter and the
 * guarded `write_attribute` follow. The entity classes in module Entities
 * are specified by these functions.
 */
module ReadonlyAttributes {
  import opened AttributeNames

  /**
   * What an entity type knows about its read-only attributes:
   *  - readonly: the `_attr_readonly` set of string names;
   *  - guardInstalled: whether `HasReadonlyAttributes` (the guarded
   *    `write_attribute`) has been included;
   *  - guardedSetters: the names for which a guarded `"#{name}="` setter
   *    has been defined.
   */
  datatype Declarations = Declarations(readonly: set<string>, guardInstalled: bool, guardedSetters: set<string>)

  /** The state of a type on which `attr_readonly` was never called (`default: []`). */
  const NoDeclarations := Declarations({}, false, {})

  /**
   * Setters are only defined for names that are added to the set, and only
   * together with the `write_attribute` guard.
   */
  predicate Valid(d: Declarations)
  {
    d.guardedSetters <= d.readonly && (d.guardedSetters != {} ==> d.guardInstalled)
  }

  /** What a guarded write answers: success, or the error with the name it carries. */
  datatype Outcome = Ok | ReadonlyAttributeError(attribute: AttrName)

  /**
   * The names `attr_readonly` treats as new: each given name turned into its
   * string form, kept in order and with repeats, except those the type has
   * already declared.
   */
  function NewAttributes(names: seq<AttrName>, present: set<string>): (r: seq<string>)
    ensures |r| <= |names|
    ensures forall a :: a in r <==> a in StringSet(names) && a !in present
  {
    if names == [] then []
    else
      var rest := NewAttributes(names[1..], present);
      var a := ToS(names[0]);
      if a in present then rest else [a] + rest
  }

  /**
   * `attr_readonly(*names)` with `raise_on_assign_to_attr_readonly` equal to
   * `raiseOnAssign`: a guarded setter for every new name and the guarded
   * `write_attribute` when the flag is on; the new names join the set in
   * every case.
   */
  function AttrReadonly(d: Declarations, names: seq<AttrName>, raiseOnAssign: bool): (d': Declarations)
    ensures d'.readonly == d.readonly + StringSet(names)
    ensures d'.guardInstalled == (d.guardInstalled || raiseOnAssign)
    ensures d'.guardedSetters == if raiseOnAssign then d.guardedSetters + (StringSet(names) - d.readonly) else d.guardedSetters
    ensures Valid(d) ==> Valid(d')
  {
    var added := NewAttributes(names, d.readonly);
    var addedSet := set a | a in added;
    Declarations(
      addedSet + d.readonly,
      d.guardInstalled || raiseOnAssign,
      if raiseOnAssign then d.guardedSetters + addedSet else d.guardedSetters)
  }

  /**
   * `readonly_attribute?(name)`: a membership test of the name, unconverted,
   * in the declared set. The set holds strings, so a symbol is never found.
   */
  predicate IsReadonlyAttribute(d: Declarations, name: AttrName)
    ensures name.Sym? ==> !IsReadonlyAttribute(d, name)
    ensures IsReadonlyAttribute(d, name) <==> name == Str(ToS(name)) && ToS(name) in d.readonly
  {
    name.Str? && name.id in d.readonly
  }

  /**
   * `readonly_attributes`: the declared names, which are exactly the strings
   * `readonly_attribute?` answers true for; every guarded setter is among them.
   */
  function ReadonlyAttributesOf(d: Declarations): (r: set<string>)
    ensures forall s :: s in r <==> IsReadonlyAttribute(d, Str(s))
    ensures Valid(d) ==> d.guardedSetters <= r
  {
    d.readonly
  }

  /**
   * The check in `HasReadonlyAttributes#write_attribute`: when the guard is
   * included, a write on a persisted record to a name whose string form is
   * read-only raises `ReadonlyAttributeError` with the name as passed.
   */
  function WriteAttributeCheck(d: Declarations, isNewRecord: bool, name: AttrName): (r: Outcome)
    ensures r != Ok <==> d.guardInstalled && !isNewRecord && ToS(name) in d.readonly
    ensures r != Ok ==> r == ReadonlyAttributeError(name)
  {
    if d.guardInstalled && !isNewRecord && IsReadonlyAttribute(d, Str(ToS(name))) then
      ReadonlyAttributeError(name)
    else
      Ok
  }

  /**
   * The check in the generated `"#{attribute}="` setter: it exists only for
   * names declared while the flag was on, and raises unless `new_record?`.
   */
  function SetterCheck(d: Declarations, isNewRecord: bool, attribute: string): (r: Outcome)
    ensures r != Ok <==> attribute in d.guardedSetters && !isNewRecord
    ensures r != Ok ==> r == ReadonlyAttributeError(Str(attribute))
    ensures Valid(d) && attribute !in d.readonly ==> r == Ok
    ensures Valid(d) && r != Ok ==>
      d.guardInstalled && attribute in d.readonly
      && WriteAttributeCheck(d, isNewRecord, Str(attribute)) == ReadonlyAttributeError(Str(attribute))
  {
    if attribute in d.guardedSetters && !isNewRecord then ReadonlyAttributeError(Str(attribute)) else Ok
  }

  /**
   * The plain attribute writer that both guards delegate to with `super`:
   * the attribute gets the value and every other attribute is unchanged.
   */
  function PlainWrite<V>(attributes: map<string, V>, key: string, value: V): (r: map<string, V>)
    ensures key in r && r[key] == value
    ensures r.Keys == attributes.Keys + {key}
    ensures forall k :: k in attributes && k != key ==> r[k] == attributes[k]
  {
    attributes[key := value]
  }

  // ---------------------------------------------------------------------------
  // Properties of declaration

  /**
   * Declaring names that are all present already adds no name and defines
   * no setter; the only possible change is that the guard gets included.
   */
  lemma AttrReadonlyOfPresentNames(d: Declarations, names: seq<AttrName>, raiseOnAssign: bool)
    requires StringSet(names) <= d.readonly
    ensures NewAttributes(names, d.readonly) == []
    ensures AttrReadonly(d, names, raiseOnAssign) == d.(guardInstalled := d.guardInstalled || raiseOnAssign)
  {
  }

  /** Repeating a declaration changes nothing: `attr_readonly` is idempotent. */
  lemma AttrReadonlyIdempotent(d: Declarations, names: seq<AttrName>, raiseOnAssign: bool)
    ensures NewAttributes(names, AttrReadonly(d, names, raiseOnAssign).readonly) == []
    ensures AttrReadonly(AttrReadonly(d, names, raiseOnAssign), names, raiseOnAssign) == AttrReadonly(d, names, raiseOnAssign)
  {
    var once := AttrReadonly(d, names, raiseOnAssign);
    AttrReadonlyOfPresentNames(once, names, raiseOnAssign);
  }

  /** Two declarations under the same flag are one declaration of both lists. */
  lemma AttrReadonlyComposes(d: Declarations, first: seq<AttrName>, second: seq<AttrName>, raiseOnAssign: bool)
    ensures AttrReadonly(AttrReadonly(d, first, raiseOnAssign), second, raiseOnAssign) == AttrReadonly(d, first + second, raiseOnAssign)
  {
  }

  /** Symbol and string spellings of a name declare and guard the same attribute. */
  lemma SpellingsEquivalent(d: Declarations, s: string, raiseOnAssign: bool, isNewRecord: bool)
    ensures AttrReadonly(d, [Sym(s)], raiseOnAssign) == AttrReadonly(d, [Str(s)], raiseOnAssign)
    ensures WriteAttributeCheck(d, isNewRecord, Sym(s)).Ok? == WriteAttributeCheck(d, isNewRecord, Str(s)).Ok?
  {
  }

  /**
   * After a declaration, `readonly_attribute?` answers true for the string
   * form of every declared name and of every name declared before, and for
   * nothing else; no name is ever removed.
   */
  lemma ReadonlyAttributeAfterDeclaration(d: Declarations, names: seq<AttrName>, raiseOnAssign: bool, name: AttrName)
    ensures ReadonlyAttributesOf(AttrReadonly(d, names, raiseOnAssign)) == ReadonlyAttributesOf(d) + StringSet(names)
    ensures IsReadonlyAttribute(AttrReadonly(d, names, raiseOnAssign), name)
        <==> name.Str? && (IsReadonlyAttribute(d, name) || name.id in StringSet(names))
    ensures name in names ==> IsReadonlyAttribute(AttrReadonly(d, names, raiseOnAssign), Str(ToS(name)))
  {
  }

  // ---------------------------------------------------------------------------
  // Properties of the write rule

  /**
   * A declaration made while the flag is off installs nothing: on a type
   * that never had the guard, no write and no setter call ever raises, and
   * the name is still recorded as read-only.
   */
  lemma FlagOffInstallsNoGuard(d: Declarations, names: seq<AttrName>, isNewRecord: bool, name: AttrName)
    requires Valid(d) && !d.guardInstalled
    ensures StringSet(names) <= AttrReadonly(d, names, false).readonly
    ensures WriteAttributeCheck(AttrReadonly(d, names, false), isNewRecord, name) == Ok
    ensures SetterCheck(AttrReadonly(d, names, false), isNewRecord, ToS(name)) == Ok
  {
  }

  /**
   * The flag only decides what a declaration installs, not what an earlier
   * one installed: on a type whose guard is already included, a name
   * declared with the flag off is still refused by `write_attribute` on a
   * persisted record, though it gets no guarded setter.
   */
  lemma FlagOffAfterGuardStillRefuses(d: Declarations, names: seq<AttrName>, name: AttrName)
    requires Valid(d) && d.guardInstalled
    requires name in names && ToS(name) !in d.readonly
    ensures var d' := AttrReadonly(d, names, false);
      WriteAttributeCheck(d', false, name) == ReadonlyAttributeError(name)
      && SetterCheck(d', false, ToS(name)) == Ok
  {
  }

  /**
   * Once a later declaration with the flag on includes the guard,
   * `write_attribute` refuses every read-only name on a persisted record,
   * including one declared earlier while the flag was off; the setter of
   * such a name stays unguarded.
   */
  lemma GuardCoversEarlierDeclarations(d: Declarations, earlier: seq<AttrName>, later: seq<AttrName>, name: AttrName)
    requires Valid(d) && !d.guardInstalled
    requires name in earlier
    ensures var d2 := AttrReadonly(AttrReadonly(d, earlier, false), later, true);
      WriteAttributeCheck(d2, false, name) == ReadonlyAttributeError(name)
      && WriteAttributeCheck(d2, true, name) == Ok
      && SetterCheck(d2, false, ToS(name)) == Ok
  {
  }

  /**
   * A declaration with the flag on guards both paths for every new name:
   * a persisted record refuses the setter and `write_attribute`, in either
   * spelling, and a new record accepts both.
   */
  lemma FlagOnGuardsNewNames(d: Declarations, names: seq<AttrName>, name: AttrName)
    requires name in names && ToS(name) !in d.readonly
    ensures var d' := AttrReadonly(d, names, true);
      SetterCheck(d', false, ToS(name)) == ReadonlyAttributeError(Str(ToS(name)))
      && SetterCheck(d', true, ToS(name)) == Ok
      && WriteAttributeCheck(d', false, Sym(ToS(name))) == ReadonlyAttributeError(Sym(ToS(name)))
      && WriteAttributeCheck(d', false, Str(ToS(name))) == ReadonlyAttributeError(Str(ToS(name)))
      && WriteAttributeCheck(d', true, name) == Ok
  {
  }
}
