/**
 * The key under which a symbol's pair index is looked up: the symbol with
 * every `/` removed, then every `_` removed, then the run of ASCII digits
 * that ends the string removed
 * (`symbol.replace(/\//g, '').replace(/_/g, '').replace(/\d+$/, '')`).
 */
module PairKey {
  import opened Text

  /** `s.replace(/c/g, '')`: every occurrence of `c` deleted, the other characters kept in order. */
  function Remove(s: string, c: char): (r: string)
    ensures c !in r
    ensures |r| <= |s|
  {
    if s == [] then []
    else
      assert s == [s[0]] + s[1..];
      (if s[0] == c then [] else [s[0]]) + Remove(s[1..], c)
  }

  /** `s.replace(/\d+$/, '')`: deletes the longest run of ASCII digits that ends `s`. */
  function StripTrailingDigits(s: string): (r: string)
    ensures IsPrefix(r, s)
    ensures forall i :: |r| <= i < |s| ==> IsDigit(s[i])
    ensures r == [] || !IsDigit(r[|r| - 1])
  {
    if s != [] && IsDigit(s[|s| - 1]) then StripTrailingDigits(s[..|s| - 1]) else s
  }

  /** Removal deletes exactly the occurrences of `c` and no other character. */
  lemma {:induction false} RemoveMembers(s: string, c: char)
    ensures forall x :: x in Remove(s, c) <==> x in s && x != c
  {
    if s != [] {
      RemoveMembers(s[1..], c);
      assert s == [s[0]] + s[1..];
    }
  }

  /** Removing a character that does not occur changes nothing. */
  lemma {:induction false} RemoveAbsent(s: string, c: char)
    requires c !in s
    ensures Remove(s, c) == s
  {
    if s != [] {
      RemoveAbsent(s[1..], c);
      assert s == [s[0]] + s[1..];
    }
  }

  /** Removal works piece by piece. */
  lemma {:induction false} RemoveAppend(a: string, b: string, c: char)
    ensures Remove(a + b, c) == Remove(a, c) + Remove(b, c)
    decreases |a|
  {
    if a != [] {
      assert (a + b)[1..] == a[1..] + b;
      RemoveAppend(a[1..], b, c);
    } else {
      assert a + b == b;
    }
  }

  /** The first two replacements of the key: no `/` and no `_` remain, every other character does. */
  function RemoveSeparators(symbol: string): (joined: string)
    ensures '/' !in joined && '_' !in joined
    ensures forall x :: x in joined <==> x in symbol && x != '/' && x != '_'
  {
    var noSlash := Remove(symbol, '/');
    RemoveMembers(symbol, '/');
    RemoveMembers(noSlash, '_');
    Remove(noSlash, '_')
  }

  /** The `PairIndex` key of a symbol. */
  function NormaliseKey(symbol: string): (key: string)
    ensures '/' !in key && '_' !in key
    ensures key == [] || !IsDigit(key[|key| - 1])
    ensures IsPrefix(key, RemoveSeparators(symbol))
    ensures forall i :: |key| <= i < |RemoveSeparators(symbol)| ==> IsDigit(RemoveSeparators(symbol)[i])
  {
    var joined := RemoveSeparators(symbol);
    var key := StripTrailingDigits(joined);
    assert key == joined[..|key|];
    key
  }

  /**
   * The three properties `StripTrailingDigits` ensures single out its result:
   * any prefix of `s` that is followed only by digits and does not itself end
   * in a digit is that result.
   */
  lemma StripTrailingDigitsUnique(s: string, r: string)
    requires IsPrefix(r, s)
    requires forall i :: |r| <= i < |s| ==> IsDigit(s[i])
    requires r == [] || !IsDigit(r[|r| - 1])
    ensures r == StripTrailingDigits(s)
  {
    var t := StripTrailingDigits(s);
    assert r == s[..|r|] && t == s[..|t|];
  }

  /** Normalising a key that is already normalised leaves it unchanged. */
  lemma NormaliseKeyIdempotent(symbol: string)
    ensures NormaliseKey(NormaliseKey(symbol)) == NormaliseKey(symbol)
  {
    var key := NormaliseKey(symbol);
    RemoveAbsent(key, '/');
    RemoveAbsent(key, '_');
    StripTrailingDigitsUnique(key, key);
  }

  /**
   * Only the digits at the very end are stripped: once the separators are
   * gone, a symbol that does not end in a digit keeps every digit it has.
   */
  lemma NormaliseKeepsInnerDigits(symbol: string)
    requires var joined := RemoveSeparators(symbol); joined == [] || !IsDigit(joined[|joined| - 1])
    ensures NormaliseKey(symbol) == RemoveSeparators(symbol)
  {
    var joined := RemoveSeparators(symbol);
    StripTrailingDigitsUnique(joined, joined);
  }
}

/** Worked normalisations of concrete symbols. */
module PairKeyExamples {
  import opened Text
  import opened PairKey

  lemma JoinBtcUsd()
    ensures RemoveSeparators("BTC/USD") == "BTCUSD"
  {
    assert Remove("BTC/USD", '/') == "BTCUSD";
    RemoveAbsent("BTCUSD", '_');
  }

  /** `"BTC/USD"` becomes `"BTCUSD"`, which is already a key and normalises to itself. */
  lemma NormaliseSlash()
    ensures NormaliseKey("BTC/USD") == "BTCUSD"
    ensures NormaliseKey("BTCUSD") == "BTCUSD"
  {
    JoinBtcUsd();
    StripTrailingDigitsUnique("BTCUSD", "BTCUSD");
    NormaliseKeyIdempotent("BTC/USD");
  }

  lemma JoinBtcUsd1()
    ensures RemoveSeparators("BTC/USD1") == "BTCUSD1"
  {
    assert Remove("BTC/USD1", '/') == "BTCUSD1";
    RemoveAbsent("BTCUSD1", '_');
  }

  /** A trailing digit after a `/`-separated pair goes: `"BTC/USD1"` becomes `"BTCUSD"`. */
  lemma NormaliseSlashAndDigit()
    ensures NormaliseKey("BTC/USD1") == "BTCUSD"
  {
    JoinBtcUsd1();
    StripTrailingDigitsUnique("BTCUSD1", "BTCUSD");
  }

  lemma DropEthUsdUnderscore()
    ensures Remove("ETH_USD", '_') == "ETHUSD"
  {
  }

  lemma JoinEthUsd()
    ensures RemoveSeparators("ETH_USD") == "ETHUSD"
  {
    RemoveAbsent("ETH_USD", '/');
    DropEthUsdUnderscore();
  }

  /** `"ETH_USD"` becomes `"ETHUSD"`. */
  lemma NormaliseUnderscore()
    ensures NormaliseKey("ETH_USD") == "ETHUSD"
  {
    JoinEthUsd();
    StripTrailingDigitsUnique("ETHUSD", "ETHUSD");
  }

  lemma JoinA12()
    ensures RemoveSeparators("A_1/2") == "A12"
  {
    assert Remove("A_1/2", '/') == "A_12";
    assert Remove("A_12", '_') == "A12";
  }

  /** Digits split by separators join into one trailing run: `"A_1/2"` becomes `"A"`. */
  lemma NormaliseJoinedDigits()
    ensures NormaliseKey("A_1/2") == "A"
  {
    JoinA12();
    StripTrailingDigitsUnique("A12", "A");
  }

  /** A digit followed by a letter is not trailing and stays: `"A1B"` is its own key. */
  lemma NormaliseInnerDigit()
    ensures NormaliseKey("A1B") == "A1B"
  {
    RemoveAbsent("A1B", '/');
    RemoveAbsent("A1B", '_');
    NormaliseKeepsInnerDigits("A1B");
  }

  lemma JoinA1Slash()
    ensures RemoveSeparators("A_1/") == "A1"
  {
    assert Remove("A_1/", '/') == "A_1";
    assert Remove("A_1", '_') == "A1";
  }

  /**
   * The order of the three replacements matters: stripping digits before the
   * separators would leave the `1` of `"A_1/2"` in the key.
   */
  lemma SeparatorsGoFirst()
    ensures NormaliseKey("A_1/2") != RemoveSeparators(StripTrailingDigits("A_1/2"))
  {
    NormaliseJoinedDigits();
    StripTrailingDigitsUnique("A_1/2", "A_1/");
    JoinA1Slash();
  }
}
