/** uuid.Parse from github.com/google/uuid, in its hyphenated 36-character
    form, and the canonical spelling that uuid.UUID.String produces. */
module Uuids {
  import opened Wrappers

  /** A UUID as its 32 hexadecimal digits, lower case. */
  datatype Uuid = Uuid(hex: seq<char>)

  const DashPositions: set<int> := {8, 13, 18, 23}

  predicate IsHexDigit(c: char) {
    '0' <= c <= '9' || 'a' <= c <= 'f' || 'A' <= c <= 'F'
  }

  predicate IsLowerHexDigit(c: char) {
    '0' <= c <= '9' || 'a' <= c <= 'f'
  }

  /** What String() can produce: exactly 32 lower-case hexadecimal digits. */
  predicate WellFormed(u: Uuid) {
    |u.hex| == 32 && forall i :: 0 <= i < 32 ==> IsLowerHexDigit(u.hex[i])
  }

  function ToLower(c: char): char {
    if 'A' <= c <= 'Z' then (c as int + 32) as char else c
  }

  function Lower(s: string): (r: string)
    ensures |r| == |s| && forall i :: 0 <= i < |s| ==> r[i] == ToLower(s[i])
  {
    seq(|s|, i requires 0 <= i < |s| => ToLower(s[i]))
  }

  /** The hyphenated spelling xxxxxxxx-xxxx-xxxx-xxxx-xxxxxxxxxxxx. */
  predicate IsCanonical(s: string) {
    && |s| == 36
    && (forall i :: 0 <= i < 36 && i in DashPositions ==> s[i] == '-')
    && (forall i :: 0 <= i < 36 && i !in DashPositions ==> IsHexDigit(s[i]))
  }

  /** The hexadecimal digits of a hyphenated spelling, hyphens removed. */
  function Digits(s: string): string
    requires |s| == 36
  {
    s[..8] + s[9..13] + s[14..18] + s[19..23] + s[24..]
  }

  /** uuid.Parse: hexadecimal digits in either case, hyphens at positions
      8, 13, 18 and 23, nothing else. */
  function ParseUuid(s: string): (r: Option<Uuid>)
    ensures r.Some? ==> WellFormed(r.value)
    ensures r.Some? <==> IsCanonical(s)
  {
    if IsCanonical(s) then
      var d := Digits(s);
      assert forall i :: 0 <= i < 32 ==> IsHexDigit(d[i]) by {
        forall i | 0 <= i < 32 ensures IsHexDigit(d[i]) {
          var j := if i < 8 then i else if i < 12 then i + 1 else if i < 16 then i + 2
                   else if i < 20 then i + 3 else i + 4;
          assert d[i] == s[j] && j !in DashPositions;
        }
      }
      Some(Uuid(Lower(d)))
    else None
  }

  /** uuid.UUID.String: the canonical hyphenated spelling. */
  function Format(u: Uuid): (s: string)
    requires WellFormed(u)
    ensures |s| == 36
  {
    var h := u.hex;
    h[..8] + "-" + h[8..12] + "-" + h[12..16] + "-" + h[16..20] + "-" + h[20..]
  }

  /** Parsing the canonical spelling of a UUID gives back that UUID. */
  lemma ParseFormat(u: Uuid)
    requires WellFormed(u)
    ensures ParseUuid(Format(u)) == Some(u)
  {
    var s := Format(u);
    var h := u.hex;
    assert Digits(s) == h by {
      assert s[..8] == h[..8] && s[9..13] == h[8..12] && s[14..18] == h[12..16];
      assert s[19..23] == h[16..20] && s[24..] == h[20..];
      assert h == h[..8] + h[8..12] + h[12..16] + h[16..20] + h[20..];
    }
    forall i | 0 <= i < 36 && i !in DashPositions ensures IsHexDigit(s[i]) {
      var j := if i < 8 then i else if i < 13 then i - 1 else if i < 18 then i - 2
               else if i < 23 then i - 3 else i - 4;
      assert s[i] == h[j];
    }
    assert IsCanonical(s);
    assert Lower(h) == h;
  }

  /** A successful parse keeps every digit, up to case: spelling the result
      canonically gives the input in lower case. */
  lemma FormatParse(s: string)
    requires ParseUuid(s).Some?
    ensures Format(ParseUuid(s).value) == Lower(s)
  {
    var d := Digits(s);
    var h := Lower(d);
    assert ParseUuid(s).value.hex == h;
    var f := Format(ParseUuid(s).value);
    forall i | 0 <= i < 36 ensures f[i] == Lower(s)[i] {
      if i !in DashPositions {
        var j := if i < 8 then i else if i < 13 then i - 1 else if i < 18 then i - 2
                 else if i < 23 then i - 3 else i - 4;
        assert f[i] == h[j] && d[j] == s[i];
      } else {
        assert f[i] == '-';
      }
    }
  }
}
