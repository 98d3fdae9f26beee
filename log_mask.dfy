/**
 * The redaction pipeline: mask rules over (field name, value) pairs and the
 * processor that runs every registered rule, in registration order, over the
 * value slots of a flattened key/value argument list.
 */
module Mask {
  import opened Values

  /** A registered rule. The three named ones are the shipped rules; Custom stands for a caller's own. */
  datatype MaskHandler =
    | PasswordMark
    | PhoneMask
    | AddressMask
    | Custom(rule: (string, Value) -> Value)

  const PasswordPlaceholder := "[****]"

  /** PasswordMark.Mask. */
  function MaskPassword(key: string, v: Value): Value
  {
    if key == "password" || key == "pwd" then Str(PasswordPlaceholder) else v
  }

  /** PasswordMark replaces every value under "password" or "pwd" by the placeholder and leaves all
      other keys alone; masking twice is masking once. */
  lemma PasswordMarkBehaviour(key: string, v: Value)
    ensures key in {"password", "pwd"} ==> MaskPassword(key, v) == Str("[****]")
    ensures key !in {"password", "pwd"} ==> MaskPassword(key, v) == v
    ensures MaskPassword(key, MaskPassword(key, v)) == MaskPassword(key, v)
  {
  }

  predicate IsDigit(c: char) { '0' <= c <= '9' }

  predicate AllDigits(s: string) { forall i :: 0 <= i < |s| ==> IsDigit(s[i]) }

  /** s starts with a run of eleven ASCII digits: a match of `(\d{3})\d{4}(\d{4})`. */
  predicate StartsWithPhoneNumber(s: string) { |s| >= 11 && AllDigits(s[..11]) }

  /**
   * ReplaceAllString(s, "$1****$2") for the pattern `(\d{3})\d{4}(\d{4})`, written as the
   * left-to-right scan it amounts to: at each position a run of eleven digits is replaced by its
   * first three digits, "****" and its last four digits, and the scan resumes after the match.
   * The result has the input's length, and every character is kept or turned into '*'.
   */
  function RedactPhoneNumbers(s: string): (r: string)
    ensures |r| == |s|
    decreases |s|
  {
    if StartsWithPhoneNumber(s) then s[..3] + "****" + s[7..11] + RedactPhoneNumbers(s[11..])
    else if s == [] then []
    else [s[0]] + RedactPhoneNumbers(s[1..])
  }

  /** Every character of the result is the input's character at that position or a '*'. */
  lemma {:induction false} RedactOnlyMasks(s: string)
    ensures forall i :: 0 <= i < |s| ==> RedactPhoneNumbers(s)[i] == s[i] || RedactPhoneNumbers(s)[i] == '*'
    decreases |s|
  {
    var r := RedactPhoneNumbers(s);
    if StartsWithPhoneNumber(s) {
      var rest := RedactPhoneNumbers(s[11..]);
      RedactOnlyMasks(s[11..]);
      assert r == s[..3] + "****" + s[7..11] + rest;
      forall i | 0 <= i < |s| ensures r[i] == s[i] || r[i] == '*' {
        if i >= 11 { assert r[i] == rest[i - 11] && s[i] == s[11..][i - 11]; }
      }
    } else if s != [] {
      RedactOnlyMasks(s[1..]);
      assert r == [s[0]] + RedactPhoneNumbers(s[1..]);
      forall i | 0 <= i < |s| ensures r[i] == s[i] || r[i] == '*' {
        if i >= 1 { assert r[i] == RedactPhoneNumbers(s[1..])[i - 1] && s[i] == s[1..][i - 1]; }
      }
    }
  }

  /** A match keeps its first three and last four digits and masks the middle four. */
  lemma PhoneNumberMasked(s: string)
    requires StartsWithPhoneNumber(s)
    ensures RedactPhoneNumbers(s)[..11] == s[..3] + "****" + s[7..11]
    ensures RedactPhoneNumbers(s)[11..] == RedactPhoneNumbers(s[11..])
  {
  }

  /** A string holding no run of eleven digits is left as it is. */
  lemma {:induction false} NoPhoneNumberUnchanged(s: string)
    requires forall i :: 0 <= i < |s| ==> !StartsWithPhoneNumber(s[i..])
    ensures RedactPhoneNumbers(s) == s
    decreases |s|
  {
    if s != [] {
      assert !StartsWithPhoneNumber(s[0..]) by { assert s[0..] == s; }
      forall i | 0 <= i < |s| - 1
        ensures !StartsWithPhoneNumber(s[1..][i..])
      {
        assert s[1..][i..] == s[i + 1..];
      }
      NoPhoneNumberUnchanged(s[1..]);
    }
  }

  /** The rule is not idempotent: masking any eighteen-digit string leaves a masked number followed
      by eleven digits, which a second pass masks again. */
  lemma PhoneMaskNotIdempotent(s: string)
    requires |s| == 18 && AllDigits(s)
    ensures RedactPhoneNumbers(s) == s[..3] + "****" + s[7..]
    ensures RedactPhoneNumbers(RedactPhoneNumbers(s)) != RedactPhoneNumbers(s)
  {
    assert AllDigits(s[..11]) by {
      forall i | 0 <= i < 11 ensures IsDigit(s[..11][i]) { assert s[..11][i] == s[i]; }
    }
    var tail := s[11..];
    forall i | 0 <= i < |tail|
      ensures !StartsWithPhoneNumber(tail[i..])
    {
    }
    NoPhoneNumberUnchanged(tail);
    var m := RedactPhoneNumbers(s);
    assert m == s[..3] + "****" + s[7..11] + tail;
    assert s[7..11] + tail == s[7..];
    forall i | 0 <= i < 7
      ensures !StartsWithPhoneNumber(m[i..])
    {
      assert m[i..][6 - i] == m[6] == '*';
      NonDigitBlocksMatch(m[i..], 6 - i);
    }
    assert NoMatchBefore(m, 7);
    RedactUnfold(m, 7);
    var t := m[7..];
    assert t == s[7..];
    assert AllDigits(t[..11]) by {
      forall i | 0 <= i < 11 ensures IsDigit(t[..11][i]) { assert t[..11][i] == s[i + 7]; }
    }
    PhoneNumberMasked(t);
    assert RedactPhoneNumbers(t)[3] == (t[..3] + "****" + t[7..11])[3] == '*';
    assert RedactPhoneNumbers(m)[10] == RedactPhoneNumbers(t)[3];
    assert m[10] == s[10] && IsDigit(s[10]);
  }

  /** A non-digit among the first eleven characters rules out a match at the start. */
  lemma NonDigitBlocksMatch(s: string, j: nat)
    requires j < 11 && j < |s| && !IsDigit(s[j])
    ensures !StartsWithPhoneNumber(s)
  {
    if |s| >= 11 {
      assert s[..11][j] == s[j];
    }
  }

  /** Where no match starts, the scan copies one character and moves on. */
  lemma RedactStep(s: string)
    requires s != [] && !StartsWithPhoneNumber(s)
    ensures RedactPhoneNumbers(s) == [s[0]] + RedactPhoneNumbers(s[1..])
  {
  }

  /** No match of the phone pattern starts before position k. */
  predicate NoMatchBefore(s: string, k: nat)
    requires k <= |s|
  {
    forall i :: 0 <= i < k ==> !StartsWithPhoneNumber(s[i..])
  }

  /** Characters before a position where no match starts pass through the scan unchanged. */
  lemma {:induction false} RedactUnfold(s: string, k: nat)
    requires k <= |s|
    requires NoMatchBefore(s, k)
    ensures RedactPhoneNumbers(s) == s[..k] + RedactPhoneNumbers(s[k..])
    decreases k
  {
    if k == 0 {
      assert s[..0] == [] && s[0..] == s;
    } else {
      var t := s[k - 1..];
      assert NoMatchBefore(s, k - 1) && !StartsWithPhoneNumber(t);
      assert t[1..] == s[k..] && s[..k - 1] + [t[0]] == s[..k];
      calc {
        RedactPhoneNumbers(s);
        { RedactUnfold(s, k - 1); }
        s[..k - 1] + RedactPhoneNumbers(t);
        { RedactStep(t); }
        s[..k - 1] + ([t[0]] + RedactPhoneNumbers(s[k..]));
        s[..k] + RedactPhoneNumbers(s[k..]);
      }
    }
  }

  /**
   * A match at any offset: the text before the leftmost match is copied, the match keeps its
   * first three and last four digits with "****" between them, and the scan resumes after it.
   */
  lemma PhoneNumberMaskedAt(s: string, k: nat)
    requires k + 11 <= |s| && NoMatchBefore(s, k) && StartsWithPhoneNumber(s[k..])
    ensures RedactPhoneNumbers(s) == s[..k] + s[k..k + 3] + "****" + s[k + 7..k + 11] + RedactPhoneNumbers(s[k + 11..])
  {
    RedactUnfold(s, k);
    MatchStep(s[k..]);
    SuffixSlices(s, k);
  }

  /** The slices of a suffix are the corresponding slices of the whole. */
  lemma SuffixSlices(s: string, k: nat)
    requires k + 11 <= |s|
    ensures s[k..][..3] == s[k..k + 3] && s[k..][7..11] == s[k + 7..k + 11] && s[k..][11..] == s[k + 11..]
  {
  }

  /** Where a match starts, the scan rewrites it and moves past it. */
  lemma MatchStep(t: string)
    requires StartsWithPhoneNumber(t)
    ensures RedactPhoneNumbers(t) == t[..3] + "****" + t[7..11] + RedactPhoneNumbers(t[11..])
  {
  }

  /** A number after other text is masked in place: "a12345678901b" becomes "a123****8901b". */
  lemma PhoneMaskAfterText(s: string)
    requires s == "a12345678901b"
    ensures RedactPhoneNumbers(s) == "a123****8901b"
  {
    AfterTextScan(s);
    PhoneNumberMaskedAt(s, 1);
    assert s[..1] == "a" && s[1..4] == "123" && s[8..12] == "8901" && s[12..] == "b";
  }

  /** How the scan meets "a12345678901b": no match at 'a', a match at 1, and a plain tail. */
  lemma AfterTextScan(s: string)
    requires s == "a12345678901b"
    ensures NoMatchBefore(s, 1) && StartsWithPhoneNumber(s[1..]) && RedactPhoneNumbers(s[12..]) == s[12..]
  {
    assert NoMatchBefore(s, 1) by {
      NonDigitBlocksMatch(s, 0);
      assert s[0..] == s;
    }
    assert StartsWithPhoneNumber(s[1..]) by {
      assert s[1..][..11] == "12345678901";
    }
    NonDigitBlocksMatch(s[12..], 0);
    RedactStep(s[12..]);
  }

  /** PhoneMask.Mask: only string values under "phone" are rewritten. */
  function MaskPhone(key: string, v: Value): Value
  {
    if key == "phone" && v.Str? then Str(RedactPhoneNumbers(v.s)) else v
  }

  /** PhoneMask leaves every other key and every non-string value alone, and preserves string length. */
  lemma PhoneMaskBehaviour(key: string, v: Value)
    ensures key != "phone" || !v.Str? ==> MaskPhone(key, v) == v
    ensures v.Str? ==> MaskPhone(key, v).Str? && |MaskPhone(key, v).s| == |v.s|
  {
  }

  /** AddressMask.Mask (a rule the test suite defines), counting one character as one byte. */
  function MaskAddress(key: string, v: Value): Value
  {
    if key == "address" && v.Str? then
      if |v.s| > 4 then Str(v.s[..4] + "****") else Str("****")
    else v
  }

  /** AddressMask: other keys and non-strings pass through; an address keeps at most its first four
      characters followed by "****", so it ends up 8 or 4 long and masking twice is masking once. */
  lemma AddressMaskBehaviour(key: string, v: Value)
    ensures key != "address" || !v.Str? ==> MaskAddress(key, v) == v
    ensures key == "address" && v.Str? && |v.s| > 4 ==> MaskAddress(key, v) == Str(v.s[..4] + "****")
    ensures key == "address" && v.Str? && |v.s| <= 4 ==> MaskAddress(key, v) == Str("****")
    ensures key == "address" && v.Str? ==>
      var m := MaskAddress(key, v).s; (|m| == 8 || |m| == 4) && m[|m| - 4..] == "****"
    ensures MaskAddress(key, MaskAddress(key, v)) == MaskAddress(key, v)
  {
    if key == "address" && v.Str? && |v.s| > 4 {
      assert (v.s[..4] + "****")[..4] == v.s[..4];
    }
  }

  /** MaskHandler.Mask, dispatched on the rule. */
  function Mask(h: MaskHandler, key: string, v: Value): Value
  {
    match h
    case PasswordMark => MaskPassword(key, v)
    case PhoneMask => MaskPhone(key, v)
    case AddressMask => MaskAddress(key, v)
    case Custom(rule) => rule(key, v)
  }

  /** The value after every rule has seen it: hs[|hs|-1].Mask(key, ... hs[0].Mask(key, v)). */
  function MaskAll(hs: seq<MaskHandler>, key: string, v: Value): Value
    decreases |hs|
  {
    if hs == [] then v else Mask(hs[|hs| - 1], key, MaskAll(hs[..|hs| - 1], key, v))
  }

  /** Running h1 and then h2 is running h1 + h2. */
  lemma {:induction false} MaskAllAppend(h1: seq<MaskHandler>, h2: seq<MaskHandler>, key: string, v: Value)
    ensures MaskAll(h1 + h2, key, v) == MaskAll(h2, key, MaskAll(h1, key, v))
    decreases |h2|
  {
    if h2 == [] {
      assert h1 + h2 == h1;
    } else {
      assert (h1 + h2)[..|h1 + h2| - 1] == h1 + h2[..|h2| - 1];
      assert (h1 + h2)[|h1 + h2| - 1] == h2[|h2| - 1];
      MaskAllAppend(h1, h2[..|h2| - 1], key, v);
    }
  }

  /** A password rule and an address rule never touch each other's keys, so their order does not matter. */
  lemma PasswordAndAddressCommute(key: string, v: Value)
    ensures MaskAll([PasswordMark, AddressMask], key, v) == MaskAll([AddressMask, PasswordMark], key, v)
  {
    assert [PasswordMark, AddressMask][..1] == [PasswordMark];
    assert [AddressMask, PasswordMark][..1] == [AddressMask];
  }

  /** The value slot j holds after Process: masked exactly when j is odd and its key is a string. */
  function ProcessedAt(hs: seq<MaskHandler>, s: seq<Value>, j: int): Value
    requires 0 <= j < |s|
  {
    if j % 2 == 1 && s[j - 1].Str? then MaskAll(hs, s[j - 1].s, s[j]) else s[j]
  }

  /** The argument list after Process, slot by slot. */
  function Processed(hs: seq<MaskHandler>, s: seq<Value>): (r: seq<Value>)
    ensures |r| == |s|
  {
    seq(|s|, j requires 0 <= j < |s| => ProcessedAt(hs, s, j))
  }

  /** Process indexes args[i+1] inside the rule loop after finding a string at even index i, without
      checking the bound: it panics exactly when some rule is registered, the list is odd and its last
      element is a string. */
  predicate ProcessPanics(hs: seq<MaskHandler>, s: seq<Value>)
  {
    hs != [] && |s| % 2 == 1 && s[|s| - 1].Str?
  }

  /** A three-element list whose last element is a key panics under any non-empty rule list, and under none it does not. */
  lemma DanglingKeyPanics(hs: seq<MaskHandler>)
    ensures ProcessPanics(hs, [Str("pwd"), Int(1234), Str("dangling")]) <==> hs != []
  {
  }

  /** Process keeps the length and every key; a pair whose key is not a string, and a trailing
      unpaired element, keep their value; with no rules it is the identity. */
  lemma ProcessedFrame(hs: seq<MaskHandler>, s: seq<Value>)
    ensures |Processed(hs, s)| == |s|
    ensures forall j :: 0 <= j < |s| && j % 2 == 0 ==> Processed(hs, s)[j] == s[j]
    ensures forall j :: 0 <= j < |s| && j % 2 == 1 && !s[j - 1].Str? ==> Processed(hs, s)[j] == s[j]
    ensures hs == [] ==> Processed(hs, s) == s
  {
  }

  /** Registering h2 after h1 and processing is processing with h1 and then with h2. */
  lemma ProcessedAppend(h1: seq<MaskHandler>, h2: seq<MaskHandler>, s: seq<Value>)
    ensures Processed(h1 + h2, s) == Processed(h2, Processed(h1, s))
  {
    var p := Processed(h1, s);
    forall j | 0 <= j < |s|
      ensures Processed(h1 + h2, s)[j] == Processed(h2, p)[j]
    {
      if j % 2 == 1 && s[j - 1].Str? {
        MaskAllAppend(h1, h2, s[j - 1].s, s[j]);
      }
    }
  }

  /** A password value is masked before it reaches a sink. */
  lemma PasswordScenario()
    ensures Processed([PasswordMark], [Str("password"), Str("secret123")]) == [Str("password"), Str("[****]")]
  {
    assert [PasswordMark][..0] == [];
  }

  /** MaskProcessor: the registered rules, applied in registration order. */
  class MaskProcessor {
    var maskHandlers: seq<MaskHandler>

    /** NewMaskProcessor. */
    constructor (handlers: seq<MaskHandler>)
      ensures maskHandlers == handlers
    {
      maskHandlers := handlers;
    }

    /** RegisterHandler: the new rules run after the existing ones, in the order given. */
    method RegisterHandler(handlers: seq<MaskHandler>)
      modifies this
      ensures maskHandlers == old(maskHandlers) + handlers
    {
      maskHandlers := maskHandlers + handlers;
    }

    /** Process rewrites the value slots of args in place and returns the same array. */
    method Process(args: array<Value>) returns (r: array<Value>)
      requires !ProcessPanics(maskHandlers, args[..])
      modifies args
      ensures r == args
      ensures args[..] == Processed(maskHandlers, old(args[..]))
    {
      ghost var input := args[..];
      var i := 0;
      while i < args.Length
        invariant 0 <= i <= args.Length + 1 && i % 2 == 0
        invariant forall k :: 0 <= k < args.Length ==>
          args[k] == if k < i then ProcessedAt(maskHandlers, input, k) else input[k]
        decreases args.Length - i
      {
        if args[i].Str? {
          var key := args[i].s;
          ghost var before := args[..];
          for j := 0 to |maskHandlers|
            invariant j > 0 ==> i + 1 < args.Length
            invariant forall k :: 0 <= k < args.Length && k != i + 1 ==> args[k] == before[k]
            invariant i + 1 < args.Length ==> args[i + 1] == MaskAll(maskHandlers[..j], key, before[i + 1])
          {
            assert maskHandlers[..j + 1][..j] == maskHandlers[..j];
            args[i + 1] := Mask(maskHandlers[j], key, args[i + 1]);
          }
          assert maskHandlers[..|maskHandlers|] == maskHandlers;
        }
        i := i + 2;
      }
      r := args;
    }
  }
}
