/** Scanning text for one character. */
module Strings {

  /** Where a character first stands in a text, or the text's length. */
  function IndexOf(text: string, c: char): (k: nat)
    ensures k <= |text| && (k < |text| ==> text[k] == c) && (forall j :: 0 <= j < k ==> text[j] != c)
  {
    if text == "" || text[0] == c then 0 else 1 + IndexOf(text[1..], c)
  }

  lemma IndexIs(text: string, c: char, k: nat)
    requires k < |text| && text[k] == c && forall j :: 0 <= j < k ==> text[j] != c
    ensures IndexOf(text, c) == k
  {
  }

  /** At most the first n characters: what a bounded copy keeps. */
  function Clip(text: string, n: nat): (r: string)
    ensures |r| <= n && r <= text
    ensures |text| <= n ==> r == text
  {
    if |text| <= n then text else text[..n]
  }

  /** The search over a buffer. */
  method Scan(buf: array<char>, from: nat, end: nat, c: char) returns (k: nat)
    requires from <= end <= buf.Length
    ensures k == from + IndexOf(buf[from..end], c)
  {
    k := from;
    while k < end
      invariant from <= k <= end && IndexOf(buf[from..end], c) == k - from + IndexOf(buf[k..end], c)
    {
      if buf[k] == c { return; }
      assert buf[k..end][0] == buf[k] && buf[k..end][1..] == buf[k + 1..end];
      k := k + 1;
    }
  }
}
