/**
 * The Powerwall operation mode reported by the gateway (tesla.go): an integer
 * enumeration with a printable name and a JSON token parser.
 */
module OperationModes {
  import opened Wrappers

  /** Go declares `type OperationMode int`, so any integer is a value of the type. */
  type OperationMode = int

  const OperationUnknown: OperationMode := 0
  const OperationSelfConsumption: OperationMode := 1
  const OperationAutonomous: OperationMode := 2
  const OperationBackup: OperationMode := 3

  /** One of the three modes the gateway can report. */
  predicate IsKnown(o: OperationMode) {
    o == OperationSelfConsumption || o == OperationAutonomous || o == OperationBackup
  }

  /** `OperationMode.String`: a name per known mode, "unknown" for every other integer. */
  function ToString(o: OperationMode): (s: string)
    ensures s == "unknown" <==> !IsKnown(o)
    ensures o == OperationSelfConsumption ==> s == "self-consumption"
    ensures o == OperationBackup ==> s == "backup"
    ensures o == OperationAutonomous ==> s == "autonomous"
  {
    if o == OperationSelfConsumption then "self-consumption"
    else if o == OperationBackup then "backup"
    else if o == OperationAutonomous then "autonomous"
    else "unknown"
  }

  /** Distinct known modes print differently: the name identifies the mode. */
  lemma ToStringInjective(a: OperationMode, b: OperationMode)
    requires IsKnown(a) && IsKnown(b) && ToString(a) == ToString(b)
    ensures a == b
  {
  }

  /** `strings.TrimLeft`-style removal of every leading `"`. */
  function TrimLeadingQuotes(s: string): (r: string)
    ensures |r| <= |s| && r == s[|s| - |r|..]
    ensures r == [] || r[0] != '"'
    ensures forall k :: 0 <= k < |s| - |r| ==> s[k] == '"'
    decreases |s|
  {
    if s != [] && s[0] == '"' then TrimLeadingQuotes(s[1..]) else s
  }

  /** Removal of every trailing `"`. */
  function TrimTrailingQuotes(s: string): (r: string)
    ensures |r| <= |s| && r == s[..|r|]
    ensures r == [] || r[|r| - 1] != '"'
    ensures forall k :: |r| <= k < |s| ==> s[k] == '"'
    decreases |s|
  {
    if s != [] && s[|s| - 1] == '"' then TrimTrailingQuotes(s[..|s| - 1]) else s
  }

  /** `strings.Trim(s, "\"")`: strips all leading and all trailing quote characters. */
  function TrimQuotes(s: string): (r: string)
    ensures r == [] || (r[0] != '"' && r[|r| - 1] != '"')
  {
    TrimTrailingQuotes(TrimLeadingQuotes(s))
  }

  /** The new value of `*o` and the error `UnmarshalJSON` returns. */
  datatype Unmarshalled = Unmarshalled(mode: OperationMode, err: Option<string>)

  /** The tokens `UnmarshalJSON` accepts, after trimming. */
  predicate IsModeToken(token: string) {
    token == "autonomous" || token == "self_consumption" || token == "backup"
  }

  /**
   * `(*OperationMode).UnmarshalJSON`: `o` is the value held before the call. On an
   * unknown token the error names the trimmed token and `*o` keeps its old value.
   */
  function UnmarshalJSON(o: OperationMode, b: string): (r: Unmarshalled)
    ensures r.err.None? <==> IsModeToken(TrimQuotes(b))
    ensures r.err.None? ==> IsKnown(r.mode) && r.mode != OperationUnknown
    ensures TrimQuotes(b) == "autonomous" ==> r.mode == OperationAutonomous
    ensures TrimQuotes(b) == "self_consumption" ==> r.mode == OperationSelfConsumption
    ensures TrimQuotes(b) == "backup" ==> r.mode == OperationBackup
    ensures r.err.Some? ==> r.mode == o && r.err.value == "Unknown operation mode " + TrimQuotes(b)
  {
    var str := TrimQuotes(b);
    if str == "autonomous" then Unmarshalled(OperationAutonomous, None)
    else if str == "self_consumption" then Unmarshalled(OperationSelfConsumption, None)
    else if str == "backup" then Unmarshalled(OperationBackup, None)
    else Unmarshalled(o, Some("Unknown operation mode " + str))
  }

  /** Removing leading quotes commutes with appending a quote, unless only quotes remain. */
  lemma {:induction false} TrimLeadingAppendQuote(s: string)
    ensures TrimLeadingQuotes(s + ['"']) ==
            if TrimLeadingQuotes(s) == [] then [] else TrimLeadingQuotes(s) + ['"']
    decreases |s|
  {
    if s == [] {
    } else if s[0] == '"' {
      assert (s + ['"'])[1..] == s[1..] + ['"'];
      TrimLeadingAppendQuote(s[1..]);
    } else {
    }
  }

  /** A trailing quote is removed with the others. */
  lemma TrimTrailingAppendQuote(s: string)
    ensures TrimTrailingQuotes(s + ['"']) == TrimTrailingQuotes(s)
  {
    assert (s + ['"'])[..|s|] == s;
  }

  /** A leading quote is removed with the others. */
  lemma TrimLeadingPrependQuote(s: string)
    ensures TrimLeadingQuotes(['"'] + s) == TrimLeadingQuotes(s)
  {
    assert (['"'] + s)[1..] == s;
  }

  /** Surrounding quotes make no difference to the trimmed token. */
  lemma TrimQuotesQuoted(s: string)
    ensures TrimQuotes(['"'] + s + ['"']) == TrimQuotes(s)
  {
    var q: string := ['"'];
    assert q + s + q == q + (s + q);
    TrimLeadingPrependQuote(s + q);
    TrimLeadingAppendQuote(s);
    var l := TrimLeadingQuotes(s);
    if l != [] {
      TrimTrailingAppendQuote(l);
    }
  }

  /** A token that neither starts nor ends with a quote is left as it is. */
  lemma TrimQuotesBare(s: string)
    requires s != [] && s[0] != '"' && s[|s| - 1] != '"'
    ensures TrimQuotes(s) == s
  {
  }

  /** The quoted JSON string and the bare token decode identically. */
  lemma UnmarshalQuotedSame(o: OperationMode, s: string)
    ensures UnmarshalJSON(o, ['"'] + s + ['"']) == UnmarshalJSON(o, s)
  {
    TrimQuotesQuoted(s);
  }

  /**
   * Decoding a quoted token then printing it gives the token back for
   * "autonomous" and "backup", but "self_consumption" prints as "self-consumption".
   */
  lemma PrintAfterUnmarshal(o: OperationMode, token: string)
    requires IsModeToken(token)
    ensures ToString(UnmarshalJSON(o, ['"'] + token + ['"']).mode) ==
            if token == "self_consumption" then "self-consumption" else token
  {
    UnmarshalQuotedSame(o, token);
    TrimQuotesBare(token);
  }

  /**
   * Printing then decoding gives the mode back for autonomous and backup; the
   * printed name of self-consumption is not a token the decoder accepts.
   */
  lemma UnmarshalAfterPrint(o: OperationMode, m: OperationMode)
    requires IsKnown(m)
    ensures var json := ['"'] + ToString(m) + ['"'];
            if m == OperationSelfConsumption
            then UnmarshalJSON(o, json) == Unmarshalled(o, Some("Unknown operation mode " + ToString(m)))
            else UnmarshalJSON(o, json) == Unmarshalled(m, None)
  {
    var name := ToString(m);
    var json := ['"'] + name + ['"'];
    TrimQuotesBare(name);
    TrimQuotesQuoted(name);
    assert TrimQuotes(json) == name;
    if m == OperationAutonomous {
      assert name == "autonomous";
    } else if m == OperationBackup {
      assert name == "backup";
    } else {
      assert name == "self-consumption";
      assert name[4] != "self_consumption"[4];
      assert !IsModeToken(name);
    }
  }
}
