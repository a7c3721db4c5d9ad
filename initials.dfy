/**
 * The letter an avatar without a picture shows. Two variants appear in the
 * console: the plain one (message pages, group members) upper-cases the
 * first character, and the CJK-aware one (chat users, default friends and
 * groups, block list) leaves the first character as it is whenever the name
 * holds a CJK unified ideograph anywhere.
 */
module Initials {
  import opened JsText

  /** The character class `[一-龥]`. */
  predicate IsCjk(c: char)
  {
    '\U{4E00}' <= c <= '\U{9FA5}'
  }

  /** `/[一-龥]/.test(name)`. */
  predicate HasCjk(name: string)
  {
    exists i :: 0 <= i < |name| && IsCjk(name[i])
  }

  predicate IsAsciiLower(c: char)
  {
    'a' <= c <= 'z'
  }

  /** `name ? name.charAt(0).toUpperCase() : fallback`. */
  function PlainInitial(name: string, fallback: string): (r: string)
    ensures name == "" ==> r == fallback
    ensures name != "" ==> |r| == 1 && !IsAsciiLower(r[0])
    ensures name != "" && !IsAsciiLower(name[0]) ==> r == [name[0]]
    ensures name != "" ==> r == [AsciiUpper(name[0])]
  {
    if name == "" then fallback else [AsciiUpper(name[0])]
  }

  /** The CJK-aware initial: any ideograph in the name keeps the first character unchanged. */
  function CjkAwareInitial(name: string, fallback: string): (r: string)
    ensures name == "" ==> r == fallback
    ensures name != "" ==> |r| == 1
    ensures name != "" && HasCjk(name) ==> r == [name[0]]
    ensures name != "" && !HasCjk(name) ==> r == [AsciiUpper(name[0])]
  {
    if name == "" then fallback
    else if HasCjk(name) then [name[0]]
    else [AsciiUpper(name[0])]
  }

  /**
   * The two variants differ exactly on the names that hold an ideograph
   * somewhere but begin with a lower-case ASCII letter, such as "a张".
   */
  lemma InitialsDifferOnlyOnMixedNames(name: string, fallback: string)
    ensures CjkAwareInitial(name, fallback) != PlainInitial(name, fallback)
        <==> name != "" && HasCjk(name) && IsAsciiLower(name[0])
  {
  }

  lemma MixedNameExample()
    ensures CjkAwareInitial("a张", "U") == "a" && PlainInitial("a张", "U") == "A"
  {
    assert IsCjk("a张"[1]);
  }
}
