/** The signed timestamp in the public sign-up form (a bot check: submit no sooner than two seconds). */
module FormToken {
  import opened Basics
  import opened Text

  const INT64_MAX: int := 0x7FFF_FFFF_FFFF_FFFF
  const INT64_MIN: int := -0x8000_0000_0000_0000

  /** The hex HMAC-SHA256 of a text under the session key. */
  type Mac = string -> string

  predicate IsInt64(n: int) {
    INT64_MIN <= n <= INT64_MAX
  }

  /** int64 subtraction wraps around. */
  function Wrap(n: int): (r: int)
    ensures IsInt64(r) && (IsInt64(n) ==> r == n)
  {
    (n - INT64_MIN) % 0x1_0000_0000_0000_0000 + INT64_MIN
  }

  /** strconv.FormatInt(n, 10) */
  function FormatInt(n: int): string {
    if n < 0 then "-" + Decimal(-n) else Decimal(n)
  }

  /** strconv.ParseInt(s, 10, 64); None for every error. */
  function ParseInt(s: string): Option<int> {
    if s == "" then None
    else
      var negative := s[0] == '-';
      var digits := if negative || s[0] == '+' then s[1..] else s;
      if digits == "" then None
      else
        match Number(digits)
        case None => None
        case Some(n) =>
          var v: int := if negative then 0 - n else n;
          if IsInt64(v) then Some(v) else None
  }

  lemma ParseFormat(n: int)
    requires IsInt64(n)
    ensures ParseInt(FormatInt(n)) == Some(n)
  {
    var d := Decimal(if n < 0 then -n else n);
    NumberOfDecimal(if n < 0 then -n else n);
    assert IsDigit(d[0]);
    if n < 0 {
      assert FormatInt(n)[1..] == d;
    }
  }

  lemma FormatHasNoDot(n: int)
    ensures '.' !in FormatInt(n)
  {
    var d := Decimal(if n < 0 then -n else n);
    assert forall i :: 0 <= i < |d| ==> IsDigit(d[i]);
  }

  /** formToken, issued at Unix second `t`. */
  function Issue(mac: Mac, t: int): string {
    var ts := FormatInt(t);
    ts + ['.'] + mac(ts)
  }

  /** checkFormToken, run at Unix second `now`. */
  predicate Check(mac: Mac, token: string, now: int) {
    match SplitFirst(token, '.')
    case None => false
    case Some((ts, sig)) =>
      sig == mac(ts) &&
      match ParseInt(ts)
      case None => false
      case Some(issued) => Wrap(now - issued) >= 2
  }

  /**
   * A token the server issued is accepted by exactly the clock readings at least two seconds later,
   * whatever the HMAC is; outside the non-negative readings the difference may wrap.
   */
  lemma IssuedToken(mac: Mac, t0: int, t1: int)
    requires IsInt64(t0) && IsInt64(t1)
    ensures Check(mac, Issue(mac, t0), t1) <==> Wrap(t1 - t0) >= 2
    ensures t0 >= 0 && t1 >= 0 ==> (Check(mac, Issue(mac, t0), t1) <==> t1 - t0 >= 2)
  {
    hide FormatInt, ParseInt, SplitFirst, Wrap;
    var ts := FormatInt(t0);
    FormatHasNoDot(t0);
    SplitFirstAt(ts, '.', mac(ts));
    ParseFormat(t0);
  }

  /** Nothing is accepted whose text after the first dot is not the HMAC of the text before it. */
  lemma AcceptedIsSigned(mac: Mac, token: string, now: int)
    requires Check(mac, token, now)
    ensures exists ts :: '.' !in ts && token == ts + ['.'] + mac(ts) && ParseInt(ts).Some?
                         && Wrap(now - ParseInt(ts).value) >= 2
  {
    SplitFirstSound(token, '.');
    var (ts, sig) := SplitFirst(token, '.').value;
    assert token == ts + ['.'] + mac(ts);
  }
}
