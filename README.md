# Read-only attributes of Active Record, modelled in Dafny

Active Record lets an entity class declare some of its attributes read-only
with `attr_readonly :title, ...`. The class keeps the declared names, as
strings, in its `_attr_readonly` set. When the process-wide flag
`raise_on_assign_to_attr_readonly` is on at declaration time, two guards are
installed:

- a redefined `title=` setter for each newly declared name;
- a guarded `write_attribute` (the `HasReadonlyAttributes` module).

Either guard raises `ReadonlyAttributeError` when the record is already
persisted. New records, and names that are not declared, are written as
usual. A declaration made while the flag is off still records its names but
installs nothing: on a type whose guard was never included, nothing raises.
If an earlier declaration with the flag on did include the guard,
`write_attribute` refuses the new names too, though their setters stay plain
(`FlagOffAfterGuardStillRefuses`).

The project has three modules:

- `AttributeNames` (attribute_names.dfy): a name as the caller spells it, a
  symbol or a string, and its `to_s`.
- `ReadonlyAttributes` (readonly_attributes.dfy): the class-level state as a
  value (`Declarations`: the read-only set, whether the guard is included, and
  which setters are guarded). It also holds the functions that say what
  `attr_readonly`, `readonly_attributes`, `readonly_attribute?`, the setter
  and `write_attribute` do, and the lemmas about them.
- `Entities` (entities.dfy): the objects that change in place. `EntityType`
  is a class whose `AttrReadonly` method loops over the new names and defines
  their setters. `Record<V>` has `isNewRecord` and an attribute map, which
  `WriteAttribute` and `Assign` (the setter) update or refuse to update.
  Both classes are specified by the functions of `ReadonlyAttributes`.

Symbol names and their faithful consequences:

- `attr_readonly` and `write_attribute` convert names with `to_s`, so `:title`
  and `"title"` are the same attribute for them (`SpellingsEquivalent`).
- `readonly_attribute?` does no conversion. `Set#include?` of a symbol in a
  set of strings is false, so `IsReadonlyAttribute` holds only for string
  names.
- The setter raises with the string name. `write_attribute` raises with the
  name exactly as it was passed, which may be a symbol.

The process-wide flag is a parameter of `AttrReadonly`. The writer that both
guards call with `super` is modelled as a plain map update (`PlainWrite`).

## Model

| member | source | states |
|---|---|---|
| AttributeNames.ToS | activerecord/lib/active_record/readonly_attributes.rb:31 | the string form of a name has the name's characters: the name is that string spelled as a symbol or as a string |
| AttributeNames.StringSet | activerecord/lib/active_record/readonly_attributes.rb:31 | the string forms of a list of names: every listed name's string form is in it, and each member is the string form of a listed symbol or string |
| ReadonlyAttributes.IsReadonlyAttribute | activerecord/lib/active_record/readonly_attributes.rb:53-55 | `readonly_attribute?` is false for every symbol, and true for a name iff it is a string in the declared set |
| ReadonlyAttributes.ReadonlyAttributesOf | activerecord/lib/active_record/readonly_attributes.rb:49-51 | `readonly_attributes` holds exactly the strings `readonly_attribute?` answers true for, and every guarded setter's name is among them |
| ReadonlyAttributes.NewAttributes | activerecord/lib/active_record/readonly_attributes.rb:31 | a string is among the new attributes iff it is the `to_s` of a given name and is not already declared; there are never more of them than names given |
| ReadonlyAttributes.AttrReadonly | activerecord/lib/active_record/readonly_attributes.rb:30-46 | the new set is the old set united with the string forms of the names, so nothing is removed; the guard is included iff it was already or the flag is on; with the flag on, exactly the undeclared names get a guarded setter, and with it off none do; setters stay within the set and only come with the guard |
| ReadonlyAttributes.WriteAttributeCheck | activerecord/lib/active_record/readonly_attributes.rb:59-62 | a write is refused iff the guard is included, the record is not new and the name's string form is declared; the error then carries the name as passed |
| ReadonlyAttributes.SetterCheck | activerecord/lib/active_record/readonly_attributes.rb:35-38 | a setter refuses iff a guarded setter was defined for that name and the record is not new, and the error then carries the string name; on a consistent type, a setter for a name outside the read-only set never refuses, and a refusing setter is for a declared name whose `write_attribute` on the same record refuses too |
| ReadonlyAttributes.PlainWrite | activerecord/lib/active_record/readonly_attributes.rb:64 | the writer reached through `super`: the attribute takes the value, the set of keys only gains that name, and every other attribute keeps its value |
| ReadonlyAttributes.AttrReadonlyOfPresentNames | activerecord/lib/active_record/readonly_attributes.rb:31-45 | declaring names that are all present yields no new attributes and no setter, and changes nothing except, with the flag on, including the guard |
| ReadonlyAttributes.AttrReadonlyIdempotent | activerecord/lib/active_record/readonly_attributes.rb:31-45 | repeating a declaration finds no new attributes and leaves the state as the first call left it |
| ReadonlyAttributes.AttrReadonlyComposes | activerecord/lib/active_record/readonly_attributes.rb:45 | two declarations under the same flag give the same state as one declaration of both lists |
| ReadonlyAttributes.SpellingsEquivalent | activerecord/lib/active_record/readonly_attributes.rb:30-62 | declaring `:s` or `"s"` gives the same state, and `write_attribute` refuses `:s` iff it refuses `"s"` |
| ReadonlyAttributes.ReadonlyAttributeAfterDeclaration | activerecord/lib/active_record/readonly_attributes.rb:45-55 | after a declaration, `readonly_attributes` is the old set plus the declared string forms; `readonly_attribute?` is true exactly for string names that were declared before or now, and holds for the string form of every declared name |
| ReadonlyAttributes.FlagOffInstallsNoGuard | activerecord/lib/active_record/readonly_attributes.rb:18-45 | on a type without the guard, a declaration with the flag off still records the names, but afterwards no write and no setter call raises |
| ReadonlyAttributes.FlagOffAfterGuardStillRefuses | activerecord/lib/active_record/readonly_attributes.rb:33-62 | on a type whose guard is already included, a name newly declared with the flag off is refused by `write_attribute` on a persisted record, while its setter does not refuse |
| ReadonlyAttributes.GuardCoversEarlierDeclarations | activerecord/lib/active_record/readonly_attributes.rb:33-62 | a name declared while the flag was off is refused by `write_attribute` on a persisted record once a later declaration includes the guard, and is still accepted on a new record; its setter stays unguarded |
| ReadonlyAttributes.FlagOnGuardsNewNames | activerecord/lib/active_record/readonly_attributes.rb:33-62 | a name newly declared with the flag on is refused on a persisted record by its setter (error with the string) and by `write_attribute` in either spelling (error with the name as passed), and accepted on a new record |
| Entities.EntityType.constructor | activerecord/lib/active_record/readonly_attributes.rb:11 | a type starts with no read-only names, no guard and no guarded setter |
| Entities.EntityType.AttrReadonly | activerecord/lib/active_record/readonly_attributes.rb:30-46 | the loop defines a guarded setter for each new name, then the guard is included; the type's new state is `ReadonlyAttributes.AttrReadonly` of its old state, and the setter/guard invariant is kept |
| Entities.Record.WriteAttribute | activerecord/lib/active_record/readonly_attributes.rb:59-65 | the result is the `write_attribute` check on the type's current declarations; on success the attribute map is the plain write of the value, on refusal it is unchanged; `new_record?` is unchanged |
| Entities.Record.Assign | activerecord/lib/active_record/readonly_attributes.rb:35-38 | the result is the setter check; on success the attribute map is the plain write, on refusal it is unchanged |
| Entities.PostTitleExample | activerecord/lib/active_record/readonly_attributes.rb:23-29 | for `Post` with `attr_readonly :title`, assigning or writing the title of a created post raises with `"title"` and `:title` respectively, and the title keeps its created value; a new post accepts the assignment |

## Left out

- Excluding read-only columns from the UPDATE on `save` (readonly_attributes.rb:19): it happens in persistence code that is not part of this model. Saving is also not modelled; a persisted record is built directly with `Record.Persisted`.
- `ActiveSupport::Concern` and `class_attribute` (readonly_attributes.rb:8-12): inheritance of `_attr_readonly` by subclasses and its copy-on-write are not modelled. Each `EntityType` is one class on its own.
- Method generation itself (`define_method`, `include`): it is modelled as the state it leaves behind, `guardedSetters` and `guardInstalled`.
- The real attribute writer reached through `super`: it is a plain map update keyed by the string name. Alias resolution, type casting, dirty tracking and the error for an unknown attribute are not part of this model.
- An unguarded setter is modelled as the plain writer, which does not pass through `write_attribute`. So a name declared while the flag was off keeps an unguarded setter even after the guard is included (`GuardCoversEarlierDeclarations`).
- Names other than symbols and strings (any object with a `to_s`) are not modelled.
- activerecord/test/cases/asynchronous_queries_test.rb: it tests thread-pool executors, futures and sessions. That is concurrency, and its implementation is not part of this model.
- railties/test/engine/commands_test.rb: it tests process spawning, PTYs and signals. That is I/O only.
