/**
 * The upload route (app/api/upload/route.ts), for the part that decides
 * names: the stored file is named by the upload time in milliseconds, a
 * dash, and the client's file name with every character outside
 * `[a-zA-Z0-9.-]` replaced by `_`; the answer is its public URL.
 */
module Upload {
  import opened Wrappers
  import opened Http
  import Text

  /** The characters the pattern `[^a-zA-Z0-9.-]` leaves alone. */
  predicate Kept(c: char) {
    ('a' <= c <= 'z') || ('A' <= c <= 'Z') || ('0' <= c <= '9') || c == '.' || c == '-'
  }

  /** `name.replace(/[^a-zA-Z0-9.-]/g, '_')`. */
  function Sanitize(name: string): (r: string)
    ensures |r| == |name|
    ensures forall k :: 0 <= k < |r| ==> Kept(r[k]) || r[k] == '_'
  {
    seq(|name|, k requires 0 <= k < |name| => if Kept(name[k]) then name[k] else '_')
  }

  /**
   * Sanitising works one character for one: kept characters stay where they
   * are, every other becomes `_`, and sanitising twice is sanitising once.
   */
  lemma SanitizeSpec(name: string)
    ensures forall k :: 0 <= k < |name| && Kept(name[k]) ==> Sanitize(name)[k] == name[k]
    ensures forall k :: 0 <= k < |name| && !Kept(name[k]) ==> Sanitize(name)[k] == '_'
    ensures Sanitize(Sanitize(name)) == Sanitize(name)
  {
  }

  function DigitChar(d: int): (c: char)
    requires 0 <= d < 10
    ensures '0' <= c <= '9'
  {
    ('0' as int + d) as char
  }

  /** `String(n)` for a natural number: its decimal digits, without leading zeros. */
  function Decimal(n: nat): (r: string)
    ensures |r| >= 1
    ensures n > 0 ==> r[0] != '0'
    ensures forall k :: 0 <= k < |r| ==> '0' <= r[k] <= '9'
    decreases n
  {
    if n < 10 then [DigitChar(n)] else Decimal(n / 10) + [DigitChar(n % 10)]
  }

  /** The value of a string of decimal digits. */
  function DigitsValue(s: string): nat
    requires forall k :: 0 <= k < |s| ==> '0' <= s[k] <= '9'
    decreases |s|
  {
    if s == [] then 0 else DigitsValue(s[..|s| - 1]) * 10 + (s[|s| - 1] as int - '0' as int)
  }

  /** Reading the digits back gives the number. */
  lemma {:induction false} DecimalRoundTrip(n: nat)
    ensures DigitsValue(Decimal(n)) == n
    decreases n
  {
    if n >= 10 {
      DecimalRoundTrip(n / 10);
      var s := Decimal(n);
      assert s[..|s| - 1] == Decimal(n / 10);
    }
  }

  /** The stored file name: the timestamp, a dash, and the sanitised client name. */
  function FileName(now: nat, name: string): (r: string)
    ensures |r| == |Decimal(now)| + 1 + |name|
    ensures r[|Decimal(now)|] == '-'
  {
    Decimal(now) + "-" + Sanitize(name)
  }

  /**
   * The time can be read back from a stored name: it is everything before
   * the first dash, and the sanitised client name is everything after it.
   */
  lemma FileNameParts(now: nat, name: string)
    ensures var f := FileName(now, name);
            var stamp := Text.Before(f, '-');
            stamp == Decimal(now) && DigitsValue(stamp) == now && f[|stamp| + 1..] == Sanitize(name)
  {
    var f := FileName(now, name);
    assert '-' !in Decimal(now);
    assert f == Decimal(now) + ['-'] + Sanitize(name);
    Text.BeforeOfJoined(Decimal(now), '-', Sanitize(name));
    DecimalRoundTrip(now);
  }

  /**
   * `POST /api/upload`: 400 "No file uploaded" without a file; 500 "Upload
   * failed" when writing the file fails; otherwise the public URL of the
   * stored name.
   */
  function Post(fileName: Option<string>, now: nat, writeFails: bool): (r: Reply<string>)
    ensures fileName.None? ==> r == Error(400, "No file uploaded")
    ensures fileName.Some? && writeFails ==> r == Error(500, "Upload failed")
    ensures fileName.Some? && !writeFails ==>
              r.Ok? && Text.StartsWith(r.body, "/uploads/") && r.body[9..] == FileName(now, fileName.value)
  {
    if fileName.None? then Error(400, "No file uploaded")
    else if writeFails then Error(500, "Upload failed")
    else Ok(200, "/uploads/" + FileName(now, fileName.value))
  }
}
