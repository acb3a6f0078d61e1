/**
 * `normalizeTimestampToISO` (src/utils/time.ts): trim, then try the strict
 * pattern
 *   ^(\d{4}-\d{2}-\d{2}T\d{2}:\d{2}:\d{2})\.(\d{3})\d*
 *    (?:([+-]\d{2})(\d{2})|([+-]\d{4})|Z|([+-]\d{2}:\d{2}))?$
 * and rebuild base + "." + milliseconds + offset; otherwise fall back to the
 * date library, and finally to the trimmed input.
 */
module Time {
  import opened Wrappers
  import opened Js

  /** ASCII `\d` (the pattern has no `u` flag). */
  predicate IsDigit(c: char) {
    '0' <= c <= '9'
  }

  predicate AllDigits(s: string) {
    forall k | 0 <= k < |s| :: IsDigit(s[k])
  }

  /**
   * One character against one pattern position: `#` is `\d`, `±` is `[+-]`,
   * anything else is itself.
   */
  predicate Accepts(p: char, c: char) {
    if p == '#' then IsDigit(c) else if p == '±' then c == '+' || c == '-' else c == p
  }

  /** `s` matches the fixed-length `pattern` position by position. */
  predicate Fits(s: string, pattern: string) {
    |s| == |pattern| && forall k | 0 <= k < |s| :: Accepts(pattern[k], s[k])
  }

  /** `YYYY-MM-DDTHH:MM:SS` (group 1), the dot and the three millisecond digits (group 2). */
  const HeadPattern := "####-##-##T##:##:##.###"
  const CompactOffset := "±####"
  const ColonOffset := "±##:##"

  /** The end of the run of digits that starts at `i` (the greedy `\d*`). */
  function DigitRunEnd(s: string, i: nat): (j: nat)
    requires i <= |s|
    ensures i <= j <= |s|
    ensures AllDigits(s[i..j])
    ensures j == |s| || !IsDigit(s[j])
    decreases |s| - i
  {
    if i < |s| && IsDigit(s[i]) then
      var j := DigitRunEnd(s, i + 1);
      assert s[i..j] == [s[i]] + s[i + 1..j];
      j
    else i
  }

  /** The capture groups 1 to 6 of a successful match (3 to 6 are optional). */
  datatype Groups = Groups(
    base: string, ms: string,
    g3: Option<string>, g4: Option<string>, g5: Option<string>, g6: Option<string>)

  /**
   * `raw.match(pattern)`. The greedy `\d*` consumes every fraction digit; since
   * every suffix alternative starts with a non-digit, backtracking into it never
   * helps, so the suffix is what follows the digit run, and the anchored
   * alternatives are tried in source order.
   */
  function Match(raw: string): Option<Groups> {
    if |raw| < 23 || !Fits(raw[..23], HeadPattern) then None
    else
      var rest := raw[DigitRunEnd(raw, 23)..];
      var g := Groups(raw[..19], raw[20..23], None, None, None, None);
      if |rest| == 5 && Fits(rest[..3], "±##") && Fits(rest[3..], "##") then
        Some(g.(g3 := Some(rest[..3]), g4 := Some(rest[3..])))
      else if Fits(rest, CompactOffset) then
        Some(g.(g5 := Some(rest)))
      else if rest == "Z" then Some(g)
      else if Fits(rest, ColonOffset) then Some(g.(g6 := Some(rest)))
      else if rest == "" then Some(g)
      else None
  }

  /** JavaScript truthiness of an optional capture group. */
  predicate Truthy(g: Option<string>) {
    g.Some? && g.value != ""
  }

  /** The `let offset` selection, branch for branch. */
  function OffsetOf(g: Groups): string {
    if Truthy(g.g6) then g.g6.value
    else if Truthy(g.g3) && Truthy(g.g4) then g.g3.value + ":" + g.g4.value
    else if Truthy(g.g5) then Slice(g.g5.value, 0, 3) + ":" + Slice(g.g5.value, 3, 5)
    else "Z"
  }

  /** `normalizeTimestampToISO(input)`, with the date library passed in. */
  function NormalizeTimestamp(input: string, date: string -> Option<Iso>): (r: string)
    ensures r == "" <==> Trim(input) == ""
  {
    var raw := Trim(input);
    if raw == "" then ""
    else match Match(raw)
      case Some(g) => g.base + "." + g.ms + OffsetOf(g)
      case None =>
        match date(raw)
        case Some(iso) => iso
        case None => raw
  }

  // ---------------------------------------------------------------------------
  // A declarative reading of the strict pattern, independent of `Match`.

  /** The optional suffix: nothing, `Z`, `±HHMM` or `±HH:MM`. */
  predicate IsSuffix(t: string) {
    t == "" || t == "Z" || Fits(t, CompactOffset) || Fits(t, ColonOffset)
  }

  /** `raw` is head, then some digits, then a suffix, with the digits ending at `k`. */
  predicate StrictAt(raw: string, k: nat) {
    && |raw| >= 23 && Fits(raw[..23], HeadPattern)
    && 23 <= k <= |raw| && AllDigits(raw[23..k]) && IsSuffix(raw[k..])
  }

  /** The offset each suffix form is rewritten to. */
  function CanonicalOffset(t: string): (r: string)
    requires IsSuffix(t)
    ensures r == "Z" || Fits(r, ColonOffset)
  {
    if t == "" || t == "Z" then "Z"
    else if Fits(t, CompactOffset) then t[..3] + ":" + t[3..]
    else t
  }

  /** A suffix never starts with a digit, so the digit run ends exactly where it starts. */
  lemma StrictSplitUnique(raw: string, k: nat)
    requires StrictAt(raw, k)
    ensures DigitRunEnd(raw, 23) == k
  {
    var j := DigitRunEnd(raw, 23);
    forall i | 23 <= i < k ensures IsDigit(raw[i]) {
      assert raw[i] == raw[23..k][i - 23];
    }
    forall i | 23 <= i < j ensures IsDigit(raw[i]) {
      assert raw[i] == raw[23..j][i - 23];
    }
    assert k < |raw| ==> !IsDigit(raw[k]) by {
      if k < |raw| { assert raw[k..][0] == raw[k]; }
    }
  }

  /** The `([+-]\d{4})` alternative (group 5) never captures: the one before it takes every such suffix. */
  lemma Group5NeverCaptures(raw: string)
    requires Match(raw).Some?
    ensures Match(raw).value.g5 == None
  {
    var rest := raw[DigitRunEnd(raw, 23)..];
    if Fits(rest, CompactOffset) {
      assert Fits(rest[..3], "±##") by {
        forall k | 0 <= k < 3 ensures Accepts("±##"[k], rest[..3][k]) {
          assert "±##"[k] == CompactOffset[k];
        }
      }
      assert Fits(rest[3..], "##") by {
        forall k | 0 <= k < 2 ensures Accepts("##"[k], rest[3..][k]) {
          assert "##"[k] == CompactOffset[k + 3];
        }
      }
    }
  }

  /** The pattern matches exactly the strings of the declarative reading. */
  lemma MatchIff(raw: string)
    ensures Match(raw).Some? <==> exists k :: StrictAt(raw, k)
  {
    if Match(raw).Some? {
      var k := DigitRunEnd(raw, 23);
      var rest := raw[k..];
      if |rest| == 5 && Fits(rest[..3], "±##") && Fits(rest[3..], "##") {
        assert Fits(rest, CompactOffset) by {
          forall i | 0 <= i < 5 ensures Accepts(CompactOffset[i], rest[i]) {
            if i < 3 { assert rest[i] == rest[..3][i]; } else { assert rest[i] == rest[3..][i - 3]; }
          }
        }
      }
      assert StrictAt(raw, k);
    } else if exists k :: StrictAt(raw, k) {
      var k :| StrictAt(raw, k);
      StrictSplitUnique(raw, k);
    }
  }

  /**
   * On a strict match the output is the first 23 characters (date, time, dot and
   * exactly three millisecond digits; further fraction digits are dropped)
   * followed by the canonical offset of the suffix.
   */
  lemma StrictOutput(input: string, date: string -> Option<Iso>, k: nat)
    requires StrictAt(Trim(input), k)
    ensures NormalizeTimestamp(input, date) == Trim(input)[..23] + CanonicalOffset(Trim(input)[k..])
  {
    var m := StrictRebuild(Trim(input), k);
  }

  /** The groups of a strict string rebuild its head and the canonical offset of its suffix. */
  lemma StrictRebuild(raw: string, k: nat) returns (m: Groups)
    requires StrictAt(raw, k)
    ensures Match(raw) == Some(m)
    ensures m.base + "." + m.ms + OffsetOf(m) == raw[..23] + CanonicalOffset(raw[k..])
  {
    StrictSplitUnique(raw, k);
    MatchIff(raw);
    Group5NeverCaptures(raw);
    m := Match(raw).value;
    assert raw[..23] == m.base + "." + m.ms by {
      assert raw[19] == raw[..23][19] == '.';
    }
    OffsetIsCanonical(raw, m, k);
  }

  lemma OffsetIsCanonical(raw: string, m: Groups, k: nat)
    requires StrictAt(raw, k) && DigitRunEnd(raw, 23) == k
    requires Match(raw) == Some(m) && m.g5 == None
    ensures OffsetOf(m) == CanonicalOffset(raw[k..])
  {
    var t := raw[k..];
    if Fits(t, CompactOffset) {
      assert Fits(t[..3], "±##") by {
        forall i | 0 <= i < 3 ensures Accepts("±##"[i], t[..3][i]) {
          assert "±##"[i] == CompactOffset[i];
        }
      }
      assert Fits(t[3..], "##") by {
        forall i | 0 <= i < 2 ensures Accepts("##"[i], t[3..][i]) {
          assert "##"[i] == CompactOffset[i + 3];
        }
      }
      assert m.g3 == Some(t[..3]) && m.g4 == Some(t[3..]);
    } else if Fits(t, ColonOffset) {
      assert t != "Z" && |t| != 5;
      assert m.g6 == Some(t);
    } else {
      assert m.g3 == None && m.g6 == None;
    }
  }

  /** What the strict branch produces: head, then `Z` or `±HH:MM`. */
  predicate IsCanonical(s: string) {
    |s| >= 24 && Fits(s[..23], HeadPattern) && (s[23..] == "Z" || Fits(s[23..], ColonOffset))
  }

  lemma StrictOutputIsCanonical(input: string, date: string -> Option<Iso>)
    requires Match(Trim(input)).Some?
    ensures IsCanonical(NormalizeTimestamp(input, date))
  {
    var raw := Trim(input);
    MatchIff(raw);
    var k: nat :| StrictAt(raw, k);
    StrictOutput(input, date, k);
    var r := NormalizeTimestamp(input, date);
    assert r[..23] == raw[..23];
    assert r[23..] == CanonicalOffset(raw[k..]);
  }

  /** A canonical string is a fixed point of the normaliser. */
  lemma CanonicalIsFixed(s: string, date: string -> Option<Iso>)
    requires IsCanonical(s)
    ensures NormalizeTimestamp(s, date) == s
  {
    assert !IsWhitespace(s[0]) by { assert s[0] == s[..23][0]; }
    assert !IsWhitespace(s[|s| - 1]) by {
      assert s[|s| - 1] == s[23..][|s| - 24];
    }
    TrimOfTrimmed(s);
    var t := s[23..];
    assert StrictAt(s, 23) by {
      assert s[23..23] == [];
    }
    StrictOutput(s, date, 23);
    assert s == s[..23] + t;
  }

  /** Idempotence of the strict branch: normalising its output changes nothing. */
  lemma StrictIdempotent(input: string, date: string -> Option<Iso>)
    requires Match(Trim(input)).Some?
    ensures NormalizeTimestamp(NormalizeTimestamp(input, date), date) == NormalizeTimestamp(input, date)
  {
    StrictOutputIsCanonical(input, date);
    CanonicalIsFixed(NormalizeTimestamp(input, date), date);
  }

  /**
   * The fallback tiers: when the strict pattern fails, the date library's
   * ISO string if it accepts the trimmed input, else the trimmed input itself.
   */
  lemma Fallback(input: string, date: string -> Option<Iso>)
    requires Trim(input) != "" && forall k :: !StrictAt(Trim(input), k)
    ensures date(Trim(input)).Some? ==> NormalizeTimestamp(input, date) == date(Trim(input)).value
    ensures date(Trim(input)).None? ==> NormalizeTimestamp(input, date) == Trim(input)
  {
    MatchIff(Trim(input));
  }

  /** `normalize("not-a-date")` is `"not-a-date"` when the date library rejects it. */
  lemma NotADate(date: string -> Option<Iso>)
    requires date("not-a-date") == None
    ensures NormalizeTimestamp("not-a-date", date) == "not-a-date"
  {
    TrimOfTrimmed("not-a-date");
    assert Match("not-a-date") == None;
  }
}
