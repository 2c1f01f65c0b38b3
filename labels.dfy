/**
 The text a call row shows: the decimal rendering JavaScript gives an integer inside a
 template literal, the duration label, the talkgroup label with its fallbacks, and the
 play/stop button caption.
 */
module Labels {
  import opened Wrappers
  import opened Records

  predicate IsDigit(c: char)
  {
    '0' <= c <= '9'
  }

  predicate IsDigits(s: string)
  {
    forall i :: 0 <= i < |s| ==> IsDigit(s[i])
  }

  /** The number a string of decimal digits denotes. */
  function DigitsValue(s: string): nat
    requires IsDigits(s)
  {
    if s == [] then 0
    else DigitsValue(s[..|s| - 1]) * 10 + (s[|s| - 1] as int - '0' as int)
  }

  function DigitChar(d: nat): (c: char)
    requires d < 10
    ensures IsDigit(c) && c as int - '0' as int == d
  {
    ('0' as int + d) as char
  }

  /** `${n}` for a non-negative integer: its shortest decimal digits. */
  function NatToString(n: nat): string
  {
    if n < 10 then [DigitChar(n)] else NatToString(n / 10) + [DigitChar(n % 10)]
  }

  /** The decimal text is canonical (no leading zero unless it is "0") and denotes `n`. */
  lemma {:induction false} NatToStringValue(n: nat)
    ensures |NatToString(n)| >= 1
    ensures IsDigits(NatToString(n))
    ensures DigitsValue(NatToString(n)) == n
    ensures NatToString(n)[0] == '0' ==> n == 0 && NatToString(n) == "0"
  {
    var s := NatToString(n);
    if n >= 10 {
      NatToStringValue(n / 10);
      var p := NatToString(n / 10);
      assert s == p + [DigitChar(n % 10)];
      assert s[..|s| - 1] == p;
      assert s[0] == p[0];
    }
  }

  /** Distinct numbers get distinct decimal texts. */
  lemma NatToStringInjective(m: nat, n: nat)
    requires NatToString(m) == NatToString(n)
    ensures m == n
  {
    NatToStringValue(m);
    NatToStringValue(n);
  }

  /** `${i}` for an integer: a minus sign before the digits of a negative one. */
  function IntToString(i: int): (s: string)
    ensures |s| >= 1
    ensures i >= 0 ==> IsDigits(s) && DigitsValue(s) == i && (s[0] == '0' ==> i == 0 && s == "0")
    ensures i < 0 ==> |s| >= 2 && s[0] == '-' && IsDigits(s[1..]) && DigitsValue(s[1..]) == -i && s[1] != '0'
  {
    if i < 0 then
      NatToStringValue(-i);
      var s := "-" + NatToString(-i);
      assert s[1..] == NatToString(-i);
      s
    else
      NatToStringValue(i);
      NatToString(i)
  }

  /** The duration label `${len}s`: the digits of `len` followed by an `s`. */
  function FormatDuration(len: nat): (r: string)
    ensures |r| >= 2 && r[|r| - 1] == 's'
    ensures IsDigits(r[..|r| - 1]) && DigitsValue(r[..|r| - 1]) == len
    ensures r[0] == '0' ==> len == 0 && r == "0s"
  {
    NatToStringValue(len);
    var r := NatToString(len) + "s";
    assert r[..|r| - 1] == NatToString(len);
    r
  }

  /** The label used when the directory has nothing better for `num`. */
  function FallbackName(num: int): string
  {
    "Talkgroup " + IntToString(num)
  }

  /** The description if the directory entry exists and has one, otherwise its alpha tag
      if non-empty, otherwise "Talkgroup <num>"; never an empty label. */
  function TalkgroupName(directory: map<int, Talkgroup>, num: int): (r: string)
    ensures r != ""
    ensures num in directory && directory[num].description != "" ==> r == directory[num].description
    ensures num in directory && directory[num].description == "" && directory[num].alpha != "" ==>
              r == directory[num].alpha
    ensures num !in directory || (directory[num].description == "" && directory[num].alpha == "") ==>
              r == FallbackName(num)
  {
    if num in directory then
      var tg := directory[num];
      if tg.description != "" then tg.description
      else if tg.alpha != "" then tg.alpha
      else FallbackName(num)
    else
      FallbackName(num)
  }

  const StopLabel: string := "\U{23F8} Stop"
  const PlayLabel: string := "\U{25B6} Play"

  /** The caption of a row's button: Stop exactly for the row of the playing call. */
  function ButtonLabel(playingCallId: Option<string>, id: string): (r: string)
    ensures r == StopLabel || r == PlayLabel
    ensures r == StopLabel <==> playingCallId == Some(id)
  {
    if playingCallId == Some(id) then StopLabel else PlayLabel
  }

  /** Number of rows of the list whose button reads Stop. */
  function StopCount(playingCallId: Option<string>, rows: seq<Call>): nat
  {
    if rows == [] then 0
    else (if ButtonLabel(playingCallId, rows[0].id) == StopLabel then 1 else 0)
         + StopCount(playingCallId, rows[1..])
  }

  predicate DistinctIds(rows: seq<Call>)
  {
    forall i, j :: 0 <= i < j < |rows| ==> rows[i].id != rows[j].id
  }

  /** With the list keyed by distinct call ids, exactly one row reads Stop when the
      playing call is in the list, and none otherwise. */
  lemma {:induction false} StopCountExact(playingCallId: Option<string>, rows: seq<Call>)
    requires DistinctIds(rows)
    ensures StopCount(playingCallId, rows) ==
              if playingCallId.Some? && playingCallId.value in (set c | c in rows :: c.id) then 1 else 0
  {
    if rows != [] {
      var tail := rows[1..];
      assert DistinctIds(tail) by {
        forall i, j | 0 <= i < j < |tail| ensures tail[i].id != tail[j].id {
          assert tail[i] == rows[i + 1] && tail[j] == rows[j + 1];
        }
      }
      StopCountExact(playingCallId, tail);
      assert (set c | c in rows :: c.id) == {rows[0].id} + (set c | c in tail :: c.id) by {
        assert forall c :: c in rows <==> c == rows[0] || c in tail;
      }
      if playingCallId == Some(rows[0].id) {
        assert (set c | c in tail :: c.id) == {} || rows[0].id !in (set c | c in tail :: c.id) by {
          forall c | c in tail ensures c.id != rows[0].id {
            var k :| 0 <= k < |tail| && tail[k] == c;
            assert rows[k + 1] == c;
          }
        }
      }
    }
  }

  /** A row with no directory entry for 100, 12 seconds long, is labelled
      "Talkgroup 100" and "12s". */
  lemma UnknownTalkgroupRow()
    ensures TalkgroupName(map[], 100) == "Talkgroup 100"
    ensures FormatDuration(12) == "12s"
  {
    assert NatToString(1) == "1";
    assert NatToString(10) == "10";
    assert NatToString(100) == "100";
    assert NatToString(12) == "12";
  }
}
