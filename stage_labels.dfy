/** The label of a sleep stage: its enum name lower-cased, then with the first
    character upper-cased (ASCII letters; every other character is left as is). */
module StageLabels {

  predicate IsUpper(c: char) { 'A' <= c <= 'Z' }

  predicate IsLower(c: char) { 'a' <= c <= 'z' }

  /** `Char.lowercaseChar()` */
  function LowerChar(c: char): char {
    if IsUpper(c) then (c as int + 32) as char else c
  }

  /** `Char.uppercaseChar()` */
  function UpperChar(c: char): char {
    if IsLower(c) then (c as int - 32) as char else c
  }

  /** `String.lowercase()` */
  function Lowercase(s: string): string {
    seq(|s|, i requires 0 <= i < |s| => LowerChar(s[i]))
  }

  /** `String.replaceFirstChar { it.uppercaseChar() }` */
  function CapitalizeFirst(s: string): string {
    if s == [] then [] else [UpperChar(s[0])] + s[1..]
  }

  /** The label a stage with enum name `name` gets. */
  function StageLabel(name: string): string {
    CapitalizeFirst(Lowercase(name))
  }

  /** The canonical capitalised form: no lower-case letter first, no upper-case letter after. */
  predicate IsCanonical(s: string) {
    (|s| > 0 ==> !IsLower(s[0])) && forall i :: 0 < i < |s| ==> !IsUpper(s[i])
  }

  /** Two strings that differ at most in the case of their letters. */
  predicate EqualIgnoringCase(s: string, t: string) {
    |s| == |t| && forall i :: 0 <= i < |s| ==> LowerChar(s[i]) == LowerChar(t[i])
  }

  /** The label is in canonical form and spells the enum name up to case. */
  lemma StageLabelCanonical(name: string)
    ensures IsCanonical(StageLabel(name))
    ensures EqualIgnoringCase(StageLabel(name), name)
  {
  }

  /** The canonical form of a name is unique: any canonical spelling of the
      name up to case is its label. */
  lemma StageLabelUnique(name: string, t: string)
    requires IsCanonical(t)
    requires EqualIgnoringCase(t, name)
    ensures t == StageLabel(name)
  {
  }

  /** Canonicalising a label again changes nothing. */
  lemma StageLabelIdempotent(name: string)
    ensures StageLabel(StageLabel(name)) == StageLabel(name)
  {
  }

  /** The label does not depend on the case the platform spells the name in. */
  lemma StageLabelIgnoresCase(s: string, t: string)
    requires EqualIgnoringCase(s, t)
    ensures StageLabel(s) == StageLabel(t)
  {
  }

  /** Enum names as the platform spells them, and as the UI shows them. */
  lemma StageLabelExamples()
    ensures StageLabel("DEEP") == "Deep"
    ensures StageLabel("deep") == "Deep"
    ensures StageLabel("LIGHT") == "Light"
    ensures StageLabel("AWAKE") == "Awake"
    ensures StageLabel("REM") == "Rem"
    ensures StageLabel("") == ""
  {
  }
}
