/**
 * Reading `process.env`, as the three configuration modules do: a variable counts as set when it
 * is present and non-empty, `env[name] || fallback` supplies defaults, and `validate` lists the
 * required names that are not set.
 */
module Environment {
  import opened Wrappers
  import opened JsText

  /** The process environment at one moment. */
  type Env = map<string, string>

  /** `!!process.env[name]`. */
  predicate IsSet(env: Env, name: string) {
    name in env && env[name] != ""
  }

  /** `process.env[name] || fallback`. */
  function Or(env: Env, name: string, fallback: string): (r: string)
    ensures IsSet(env, name) ==> r == env[name]
    ensures !IsSet(env, name) ==> r == fallback
  {
    if IsSet(env, name) then env[name] else fallback
  }

  /** `required.filter(key => !process.env[key])`. */
  function MissingNames(env: Env, required: seq<string>): (r: seq<string>)
    ensures |r| <= |required|
    ensures forall x :: x in r <==> x in required && !IsSet(env, x)
  {
    if |required| == 0 then []
    else (if IsSet(env, required[0]) then [] else [required[0]]) + MissingNames(env, required[1..])
  }

  /** Names that are all set leave nothing to report, and only then. */
  lemma NothingMissingIffAllSet(env: Env, required: seq<string>)
    ensures MissingNames(env, required) == [] <==> forall i :: 0 <= i < |required| ==> IsSet(env, required[i])
  {
    if MissingNames(env, required) == [] {
      forall i | 0 <= i < |required|
        ensures IsSet(env, required[i])
      {
        assert required[i] in required;
      }
    } else {
      var x := MissingNames(env, required)[0];
      assert x in MissingNames(env, required);
    }
  }

  /** Filtering two names keeps the unset ones in their order. */
  lemma MissingOfTwo(env: Env, a: string, b: string)
    ensures MissingNames(env, [a, b]) ==
              (if IsSet(env, a) then [] else [a]) + (if IsSet(env, b) then [] else [b])
  {
    assert [a, b][1..] == [b];
    assert [b][1..] == [];
  }

  /** Filtering three names keeps the unset ones in their order. */
  lemma MissingOfThree(env: Env, a: string, b: string, c: string)
    ensures MissingNames(env, [a, b, c]) ==
              (if IsSet(env, a) then [] else [a]) + (if IsSet(env, b) then [] else [b]) + (if IsSet(env, c) then [] else [c])
  {
    assert [a, b, c][1..] == [b, c];
    MissingOfTwo(env, b, c);
  }

  const MissingPrefix := "Missing required environment variables: "
  const IncompleteMessage := "Webhook configuration is incomplete"

  /** The message of the error `validate` throws when some names are missing. */
  function MissingMessage(missing: seq<string>): string {
    MissingPrefix + Join(missing, ", ")
  }

  /** The missing-variables message can never be the incomplete-configuration message. */
  lemma MessagesDiffer(missing: seq<string>)
    ensures MissingMessage(missing) != IncompleteMessage
  {
    assert MissingMessage(missing)[0] == 'M';
    assert IncompleteMessage[0] == 'W';
  }

  /** The default numerals of the Express configurations parse to their values. */
  lemma DefaultPortParses()
    ensures ParseInt10("3001") == Some(3001)
  {
    assert NatToDecimal(3001) == "3001";
    ParseInt10OfDecimal(3001);
  }

  lemma DefaultWindowParses()
    ensures ParseInt10("900000") == Some(900000)
  {
    assert NatToDecimal(900000) == "900000";
    ParseInt10OfDecimal(900000);
  }

  lemma DefaultMaxParses()
    ensures ParseInt10("100") == Some(100)
  {
    assert NatToDecimal(100) == "100";
    ParseInt10OfDecimal(100);
  }
}
