/**
 * The kb-agent entry point reads its configuration from the process
 * environment: every `KEY=VALUE` entry becomes one map entry.
 */
module KBAgentMain {

  /** Every environment entry holds a `=`; the split below indexes its second half unconditionally. */
  predicate WellFormed(environ: seq<string>)
  {
    forall e :: e in environ ==> '=' in e
  }

  /** strings.SplitN(s, "=", 2): the text before the first `=` and everything after it. */
  function SplitAtEquals(s: string): (kv: (string, string))
    requires '=' in s
    ensures kv.0 + "=" + kv.1 == s
    ensures '=' !in kv.0
  {
    if s[0] == '=' then ("", s[1..])
    else
      var rest := SplitAtEquals(s[1..]);
      ([s[0]] + rest.0, rest.1)
  }

  /** The split is the only one whose key has no `=`: the value keeps every later `=`. */
  lemma {:induction false} SplitAtEqualsUnique(s: string, key: string, value: string)
    requires key + "=" + value == s && '=' !in key
    ensures '=' in s
    ensures SplitAtEquals(s) == (key, value)
  {
    assert s[|key|] == '=';
    if key == [] {
      assert s[1..] == value;
    } else {
      assert s[0] == key[0] && s[0] != '=';
      assert key[1..] + "=" + value == s[1..];
      SplitAtEqualsUnique(s[1..], key[1..], value);
      assert [s[0]] + key[1..] == key;
    }
  }

  lemma SplitKeepsLaterEquals()
    ensures SplitAtEquals("A=b=c") == ("A", "b=c")
    ensures SplitAtEquals("=x") == ("", "x")
  {
    SplitAtEqualsUnique("A=b=c", "A", "b=c");
    SplitAtEqualsUnique("=x", "", "x");
  }

  function Key(e: string): string
    requires '=' in e
  {
    SplitAtEquals(e).0
  }

  function Val(e: string): string
    requires '=' in e
  {
    SplitAtEquals(e).1
  }

  /** The map the entries produce when stored in order, each overwriting earlier ones. */
  function Mapping(environ: seq<string>): (m: map<string, string>)
    requires WellFormed(environ)
    ensures forall i :: 0 <= i < |environ| ==> Key(environ[i]) in m
  {
    if |environ| == 0 then map[]
    else
      var init := environ[..|environ| - 1];
      var last := environ[|environ| - 1];
      assert forall i :: 0 <= i < |init| ==> init[i] == environ[i];
      Mapping(init)[Key(last) := Val(last)]
  }

  /** The keys are exactly the pre-`=` parts of the entries. */
  lemma {:induction false} MappingKeys(environ: seq<string>)
    requires WellFormed(environ)
    ensures Mapping(environ).Keys == set i | 0 <= i < |environ| :: Key(environ[i])
  {
    if |environ| > 0 {
      var init := environ[..|environ| - 1];
      MappingKeys(init);
      assert forall i :: 0 <= i < |init| ==> init[i] == environ[i];
      assert (set i | 0 <= i < |environ| :: Key(environ[i]))
          == (set i | 0 <= i < |init| :: Key(init[i])) + {Key(environ[|environ| - 1])};
    }
  }

  /** For a repeated key the last entry wins. */
  lemma {:induction false} MappingLastWins(environ: seq<string>, i: nat)
    requires WellFormed(environ) && i < |environ|
    requires forall j :: i < j < |environ| ==> Key(environ[j]) != Key(environ[i])
    ensures Key(environ[i]) in Mapping(environ)
    ensures Mapping(environ)[Key(environ[i])] == Val(environ[i])
  {
    var init := environ[..|environ| - 1];
    if i < |environ| - 1 {
      assert init[i] == environ[i];
      forall j | i < j < |init|
        ensures Key(init[j]) != Key(init[i])
      {
        assert init[j] == environ[j];
      }
      MappingLastWins(init, i);
    }
  }

  /** envInMapping: store each entry of the environment, in order, into a fresh map. */
  method EnvInMapping(environ: seq<string>) returns (vars: map<string, string>)
    requires WellFormed(environ)
    ensures vars == Mapping(environ)
  {
    vars := map[];
    var i := 0;
    while i < |environ|
      invariant 0 <= i <= |environ|
      invariant vars == Mapping(environ[..i])
    {
      var pairs := SplitAtEquals(environ[i]);
      vars := vars[pairs.0 := pairs.1];
      i := i + 1;
      assert environ[..i][..i - 1] == environ[..i - 1];
    }
    assert environ[..i] == environ;
  }
}
