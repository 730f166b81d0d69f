/**
 * `parse_key_value_pairs`: the `KEY=VALUE` arguments of a command-line flag
 * as a dictionary, `None` when the flag is absent.
 */
module CliParsers {
  import opened Options
  import opened Exceptions
  import opened Dicts
  import opened Values
  import opened Strings

  type StringDict = seq<Item<string, string>>

  /** The `ArgumentTypeError` for an entry without "=", naming the flag and quoting the entry. */
  function NotKeyValue(flagName: string, item: string): Exc
  {
    Simple(ArgumentTypeError, flagName + " entries must be KEY=VALUE, got: " + Repr(VStr(item)))
  }

  /** `"=" in item`: the entry has the `KEY=VALUE` form. */
  predicate IsKeyValue(item: string)
  {
    Contains(item, "=")
  }

  /**
   * `key, _, value = item.partition("=")`, both sides stripped: the key is what
   * precedes the first "=", and the value is everything after it, further
   * "=" included.
   */
  function SplitEntry(item: string): (r: Item<string, string>)
    ensures IsKeyValue(item) ==> item == HeadOf(item) + "=" + TailOf(item) && !Contains(HeadOf(item), "=")
    ensures r == Item(Strip(HeadOf(item)), Strip(TailOf(item)))
  {
    ContainsChar(item, '=');
    ContainsChar(HeadOf(item), '=');
    Item(Strip(HeadOf(item)), Strip(TailOf(item)))
  }

  /** What precedes the first "=" (all of the entry when there is none). */
  function HeadOf(item: string): string
  {
    Partition(item, '=').0
  }

  /** What follows the first "=". */
  function TailOf(item: string): string
  {
    Partition(item, '=').2
  }

  /**
   * The loop over the entries, from a dictionary already filled: the
   * dictionary after the remaining entries, or the error of the first entry
   * without "=".
   */
  function ParseFrom(raw: seq<string>, flagName: string, acc: StringDict): (r: Outcome<StringDict>)
    ensures r.Ok? <==> forall i :: 0 <= i < |raw| ==> IsKeyValue(raw[i])
    decreases |raw|
  {
    if raw == [] then Ok(acc)
    else if !IsKeyValue(raw[0]) then Raised(NotKeyValue(flagName, raw[0]))
    else
      var e := SplitEntry(raw[0]);
      ParseFrom(raw[1..], flagName, Put(acc, e.key, e.val))
  }

  /** The error names the first entry without "=". */
  lemma {:induction false} ParseFromError(raw: seq<string>, flagName: string, acc: StringDict, k: nat)
    requires k < |raw| && !IsKeyValue(raw[k]) && forall j :: 0 <= j < k ==> IsKeyValue(raw[j])
    ensures ParseFrom(raw, flagName, acc) == Raised(NotKeyValue(flagName, raw[k]))
    decreases k
  {
    if k > 0 {
      var e := SplitEntry(raw[0]);
      forall j | 0 <= j < k - 1
        ensures IsKeyValue(raw[1..][j])
      {
        assert raw[1..][j] == raw[j + 1];
      }
      ParseFromError(raw[1..], flagName, Put(acc, e.key, e.val), k - 1);
    }
  }

  /** The stripped keys of the entries, in order. */
  function EntryKeys(raw: seq<string>): (ks: seq<string>)
    ensures |ks| == |raw| && forall i :: 0 <= i < |raw| ==> ks[i] == SplitEntry(raw[i]).key
  {
    seq(|raw|, i requires 0 <= i < |raw| => SplitEntry(raw[i]).key)
  }

  lemma EntryKeysTail(raw: seq<string>)
    requires raw != []
    ensures EntryKeys(raw) == [SplitEntry(raw[0]).key] + EntryKeys(raw[1..])
  {
    assert forall i :: 0 <= i < |raw[1..]| ==> raw[1..][i] == raw[i + 1];
  }

  /** The keys of the result are those already present and the stripped keys of the entries. */
  lemma {:induction false} ParseFromKeys(raw: seq<string>, flagName: string, acc: StringDict, key: string)
    requires ParseFrom(raw, flagName, acc).Ok?
    ensures key in KeysOf(ParseFrom(raw, flagName, acc).value) <==> key in KeysOf(acc) || key in EntryKeys(raw)
    decreases |raw|
  {
    if raw != [] {
      var e := SplitEntry(raw[0]);
      var acc' := Put(acc, e.key, e.val);
      ParseFromKeys(raw[1..], flagName, acc', key);
      EntryKeysTail(raw);
    }
  }

  /** A key no entry names keeps the value it had. */
  lemma {:induction false} ParseFromUntouched(raw: seq<string>, flagName: string, acc: StringDict, key: string)
    requires ParseFrom(raw, flagName, acc).Ok? && key !in EntryKeys(raw)
    ensures Get(ParseFrom(raw, flagName, acc).value, key) == Get(acc, key)
    decreases |raw|
  {
    if raw != [] {
      var e := SplitEntry(raw[0]);
      var acc' := Put(acc, e.key, e.val);
      EntryKeysTail(raw);
      ParseFromUntouched(raw[1..], flagName, acc', key);
    }
  }

  /** An entry whose key no later entry repeats ends in the result with its value: later entries overwrite. */
  lemma {:induction false} ParseFromLastWins(raw: seq<string>, flagName: string, acc: StringDict, i: nat)
    requires ParseFrom(raw, flagName, acc).Ok? && i < |raw|
    requires forall j :: i < j < |raw| ==> SplitEntry(raw[j]).key != SplitEntry(raw[i]).key
    ensures Get(ParseFrom(raw, flagName, acc).value, SplitEntry(raw[i]).key) == Some(SplitEntry(raw[i]).val)
    decreases |raw|
  {
    var e := SplitEntry(raw[0]);
    var acc' := Put(acc, e.key, e.val);
    assert ParseFrom(raw, flagName, acc) == ParseFrom(raw[1..], flagName, acc');
    var key := SplitEntry(raw[i]).key;
    if i == 0 {
      forall j | 0 <= j < |raw[1..]|
        ensures EntryKeys(raw[1..])[j] != key
      {
        assert raw[1..][j] == raw[j + 1];
      }
      ParseFromUntouched(raw[1..], flagName, acc', key);
    } else {
      assert raw[1..][i - 1] == raw[i];
      forall j | i - 1 < j < |raw[1..]|
        ensures SplitEntry(raw[1..][j]).key != key
      {
        assert raw[1..][j] == raw[j + 1];
      }
      ParseFromLastWins(raw[1..], flagName, acc', i - 1);
    }
  }

  /**
   * `parse_key_value_pairs(raw, flag_name)`: `None` for an absent flag, the
   * dictionary of the entries otherwise (empty for no entries).
   */
  function KeyValuePairsOf(raw: Option<seq<string>>, flagName: string := "--option"): (r: Outcome<Option<StringDict>>)
    ensures raw.None? ==> r == Ok(None)
    ensures raw == Some([]) ==> r == Ok(Some([]))
    ensures raw.Some? ==> (r.Ok? <==> forall i :: 0 <= i < |raw.value| ==> IsKeyValue(raw.value[i]))
    ensures r.Ok? && raw.Some? ==> r.value.Some?
  {
    if raw.None? then Ok(None)
    else
      var d :- ParseFrom(raw.value, flagName, []);
      Ok(Some(d))
  }

  /**
   * What the parsed flag holds: an entry without "=" raises the error naming
   * the first such entry; otherwise the keys are exactly the stripped keys of
   * the entries, and every entry whose key no later entry repeats is there
   * with its stripped value.
   */
  lemma KeyValuePairsMeaning(raw: seq<string>, flagName: string)
    ensures forall k :: 0 <= k < |raw| && !IsKeyValue(raw[k]) && (forall j :: 0 <= j < k ==> IsKeyValue(raw[j])) ==>
      KeyValuePairsOf(Some(raw), flagName) == Raised(NotKeyValue(flagName, raw[k]))
    ensures KeyValuePairsOf(Some(raw), flagName).Ok? ==>
      forall key :: key in KeysOf(KeyValuePairsOf(Some(raw), flagName).value.value) <==> key in EntryKeys(raw)
    ensures KeyValuePairsOf(Some(raw), flagName).Ok? ==>
      forall i :: 0 <= i < |raw| && (forall j :: i < j < |raw| ==> SplitEntry(raw[j]).key != SplitEntry(raw[i]).key) ==>
        Get(KeyValuePairsOf(Some(raw), flagName).value.value, SplitEntry(raw[i]).key) == Some(SplitEntry(raw[i]).val)
  {
    forall k | 0 <= k < |raw| && !IsKeyValue(raw[k]) && (forall j :: 0 <= j < k ==> IsKeyValue(raw[j]))
      ensures KeyValuePairsOf(Some(raw), flagName) == Raised(NotKeyValue(flagName, raw[k]))
    {
      ParseFromError(raw, flagName, [], k);
    }
    if KeyValuePairsOf(Some(raw), flagName).Ok? {
      forall key
        ensures key in KeysOf(KeyValuePairsOf(Some(raw), flagName).value.value) <==> key in EntryKeys(raw)
      {
        ParseFromKeys(raw, flagName, [], key);
      }
      forall i | 0 <= i < |raw| && (forall j :: i < j < |raw| ==> SplitEntry(raw[j]).key != SplitEntry(raw[i]).key)
        ensures Get(KeyValuePairsOf(Some(raw), flagName).value.value, SplitEntry(raw[i]).key) == Some(SplitEntry(raw[i]).val)
      {
        ParseFromLastWins(raw, flagName, [], i);
      }
    }
  }

  /** `parse_key_value_pairs`, filling the result dictionary in a loop as the source does. */
  method ParseKeyValuePairs(raw: Option<seq<string>>, flagName: string := "--option") returns (r: Outcome<Option<StringDict>>)
    ensures r == KeyValuePairsOf(raw, flagName)
  {
    if raw.None? {
      return Ok(None);
    }
    var entries := raw.value;
    var result: StringDict := [];
    for k := 0 to |entries|
      invariant ParseFrom(entries, flagName, []) == ParseFrom(entries[k..], flagName, result)
    {
      var item := entries[k];
      assert entries[k..][0] == item && entries[k..][1..] == entries[k + 1..];
      if !IsKeyValue(item) {
        return Raised(NotKeyValue(flagName, item));
      }
      var e := SplitEntry(item);
      result := Put(result, e.key, e.val);
    }
    assert entries[|entries|..] == [];
    return Ok(Some(result));
  }

  /** A value may itself contain "=": only the first one separates key and value. */
  lemma ValueKeepsEquals()
    ensures SplitEntry("a=b=c") == Item("a", "b=c")
  {
    var s, k, v := "a=b=c", "a", "b=c";
    assert s == k + "=" + v;
    assert IndexOf(s, '=') == 1 by {
      assert s[0] != '=' && s[1] == '=';
      assert s[1..][0] == '=';
    }
    assert s[..1] == k && s[2..] == v;
    assert Partition(s, '=') == (k, true, v);
    StripWord(k);
    StripWord(v);
  }

  /** A string without blanks at either end is its own strip. */
  lemma StripWord(s: string)
    requires s != [] && !IsSpace(s[0]) && !IsSpace(s[|s| - 1])
    ensures Strip(s) == s
  {
  }
}
