/**
 * Attribute names as `attr_readonly` and `write_attribute` receive them:
 * a Ruby symbol (`:title`) or a string (`"title"`). Both are turned into
 * their string form with `to_s` before they are compared with the
 * declared read-only names.
 */
module AttributeNames {

  /** A name as a caller spells it. */
  datatype AttrName = Sym(id: string) | Str(id: string)

  /** Ruby's `to_s`: a symbol and a string with the same characters give the same string. */
  function ToS(n: AttrName): (s: string)
    ensures n == Sym(s) || n == Str(s)
  {
    match n
    case Sym(s) => s
    case Str(s) => s
  }

  /** The string forms of a list of names, as a set. */
  function StringSet(names: seq<AttrName>): (r: set<string>)
    ensures forall n :: n in names ==> ToS(n) in r
    ensures forall s :: s in r ==> Sym(s) in names || Str(s) in names
  {
    set n | n in names :: ToS(n)
  }
}
