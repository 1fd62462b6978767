/**
 * The objects the mechanism changes in place: an entity type (the Active
 * Record class, whose `_attr_readonly` attribute and method table
 * `attr_readonly` updates) and a record of that type (whose attributes the
 * setter and `write_attribute` update, or refuse to).
 */
module Entities {
  import opened AttributeNames
  import RA = ReadonlyAttributes

  /**
   * An entity type. `readonly` is its `_attr_readonly`; `guardInstalled`
   * says whether `HasReadonlyAttributes` has been included; `guardedSetters`
   * lists the names whose `"#{name}="` setter was redefined to check
   * `new_record?`. Its `readonly_attributes` and `readonly_attribute?` are
   * RA.ReadonlyAttributesOf and RA.IsReadonlyAttribute of State().
   */
  class EntityType {
    var readonly: set<string>
    var guardInstalled: bool
    var guardedSetters: set<string>

    /** The type's declarations as a value. */
    function State(): RA.Declarations
      reads this
    {
      RA.Declarations(readonly, guardInstalled, guardedSetters)
    }

    ghost predicate Valid()
      reads this
    {
      RA.Valid(State())
    }

    /** A type on which `attr_readonly` has not been called. */
    constructor ()
      ensures Valid()
      ensures State() == RA.NoDeclarations
    {
      readonly := {};
      guardInstalled := false;
      guardedSetters := {};
    }

    /**
     * `attr_readonly(*names)`, reading the process-wide
     * `raise_on_assign_to_attr_readonly` as `raiseOnAssign`.
     */
    method AttrReadonly(names: seq<AttrName>, raiseOnAssign: bool)
      requires Valid()
      modifies this
      ensures Valid()
      ensures State() == RA.AttrReadonly(old(State()), names, raiseOnAssign)
    {
      var added := RA.NewAttributes(names, readonly);
      if raiseOnAssign {
        var i := 0;
        while i < |added|
          invariant 0 <= i <= |added|
          invariant readonly == old(readonly) && guardInstalled == old(guardInstalled)
          invariant guardedSetters == old(guardedSetters) + set j | 0 <= j < i :: added[j]
        {
          // redefine this name's setter so that it checks for a new record
          guardedSetters := guardedSetters + {added[i]};
          i := i + 1;
        }
        // install the guarded write_attribute
        guardInstalled := true;
      }
      readonly := (set a | a in added) + readonly;
    }
  }

  /**
   * A record of an entity type: `new_record?` and the attribute values by
   * string name.
   */
  class Record<V> {
    const entityType: EntityType
    var isNewRecord: bool
    var attributes: map<string, V>

    /** `Post.new`: a record that is not yet saved, with no attribute set. */
    constructor New(t: EntityType)
      ensures entityType == t && isNewRecord && attributes == map[]
    {
      entityType := t;
      isNewRecord := true;
      attributes := map[];
    }

    /** A record that is already persisted (as loaded or after `create!`). */
    constructor Persisted(t: EntityType, values: map<string, V>)
      ensures entityType == t && !isNewRecord && attributes == values
    {
      entityType := t;
      isNewRecord := false;
      attributes := values;
    }

    /**
     * `write_attribute(name, value)`. Without the guard this is the plain
     * writer; with it, a persisted record refuses a read-only name and keeps
     * its attributes.
     */
    method WriteAttribute(name: AttrName, value: V) returns (r: RA.Outcome)
      modifies this
      ensures r == RA.WriteAttributeCheck(entityType.State(), old(isNewRecord), name)
      ensures attributes == if r.Ok? then RA.PlainWrite(old(attributes), ToS(name), value) else old(attributes)
      ensures isNewRecord == old(isNewRecord)
    {
      if entityType.guardInstalled && !isNewRecord && RA.IsReadonlyAttribute(entityType.State(), Str(ToS(name))) {
        return RA.ReadonlyAttributeError(name);
      }
      attributes := attributes[ToS(name) := value];
      r := RA.Ok;
    }

    /**
     * `record.attribute = value`. A guarded setter refuses on a persisted
     * record; every other setter is the plain writer.
     */
    method Assign(attribute: string, value: V) returns (r: RA.Outcome)
      modifies this
      ensures r == RA.SetterCheck(entityType.State(), old(isNewRecord), attribute)
      ensures attributes == if r.Ok? then RA.PlainWrite(old(attributes), attribute, value) else old(attributes)
      ensures isNewRecord == old(isNewRecord)
    {
      if attribute in entityType.guardedSetters && !isNewRecord {
        return RA.ReadonlyAttributeError(Str(attribute));
      }
      attributes := attributes[attribute := value];
      r := RA.Ok;
    }
  }

  /**
   * The documented example: `Post` declares `attr_readonly :title` with the
   * flag on; assigning a title to a created post raises with "title", so
   * does writing it with `write_attribute(:title, ...)` (the error then
   * carries the symbol), and the title stays as created; a post that is not
   * saved yet accepts the assignment.
   */
  method PostTitleExample(created: string, different: string)
    returns (onAssign: RA.Outcome, onWrite: RA.Outcome, kept: string, onNew: RA.Outcome)
    ensures onAssign == RA.ReadonlyAttributeError(Str("title"))
    ensures onWrite == RA.ReadonlyAttributeError(Sym("title"))
    ensures kept == created
    ensures onNew == RA.Ok
  {
    var post := new EntityType();
    post.AttrReadonly([Sym("title")], true);
    var persisted := new Record<string>.Persisted(post, map["title" := created]);
    onAssign := persisted.Assign("title", different);
    onWrite := persisted.WriteAttribute(Sym("title"), different);
    kept := persisted.attributes["title"];
    var draft := new Record<string>.New(post);
    onNew := draft.Assign("title", different);
  }
}
