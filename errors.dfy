/** The resolver's error type and the messages it displays. */
module Errors {

  /** `EnvVarNotSet` names the primary variable that had no fallback. */
  datatype Error = NoHome | EnvVarNotSet(name: string) | Other

  const NotSet: string := " is not set"

  /** The display string of an error. */
  function Message(e: Error): (s: string)
    ensures e.NoHome? ==> s == "$HOME is not set"
    ensures e.EnvVarNotSet? ==>
      |s| == |e.name| + |NotSet| + 1 && s[0] == '$' &&
      s[1..|e.name| + 1] == e.name && s[|e.name| + 1..] == NotSet
    ensures e.Other? ==> s == "Some other error"
  {
    match e
    case NoHome => "$HOME is not set"
    case EnvVarNotSet(v) => "$" + v + NotSet
    case Other => "Some other error"
  }

  /** Distinct unset variables are reported with distinct messages. */
  lemma MessageNamesVar(v: string, w: string)
    requires Message(EnvVarNotSet(v)) == Message(EnvVarNotSet(w))
    ensures v == w
  {
    var s := Message(EnvVarNotSet(v));
    assert |v| == |w|;
    assert v == s[1..|v| + 1] == w;
  }

  /** `NoHome` reads exactly as an `EnvVarNotSet` naming `HOME` would. */
  lemma NoHomeReadsAsHomeNotSet()
    ensures Message(NoHome) == Message(EnvVarNotSet("HOME"))
  {
  }

  /** The two messages the library's tests pin down. */
  lemma MessageExamples()
    ensures Message(NoHome) == "$HOME is not set"
    ensures Message(EnvVarNotSet("SOME_VAR")) == "$SOME_VAR is not set"
  {
    assert "$" + "SOME_VAR" + NotSet == "$SOME_VAR is not set";
  }
}
