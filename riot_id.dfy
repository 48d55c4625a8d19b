// Riot ids ("Name#Tag"): the rsplit("#", 1) parse shared by several commands, and the
// lower-casing used whenever two ids are compared.

module RiotIds {

  import opened BotState

  datatype RiotId = RiotId(name: string, tag: string)

  /** Python's str.lower(), restricted to ASCII letters. */
  function LowerChar(c: char): (r: char)
    ensures 'A' <= c <= 'Z' ==> 'a' <= r <= 'z' && r as int == c as int + 32
    ensures !('A' <= c <= 'Z') ==> r == c
  {
    if 'A' <= c <= 'Z' then (c as int + 32) as char else c
  }

  function Lower(s: string): (r: string)
    ensures |r| == |s|
    ensures forall i :: 0 <= i < |s| ==> r[i] == LowerChar(s[i])
  {
    seq(|s|, i requires 0 <= i < |s| => LowerChar(s[i]))
  }

  function LowerId(id: RiotId): RiotId {
    RiotId(Lower(id.name), Lower(id.tag))
  }

  /** The index of the last occurrence of c in s, or None. */
  function LastIndexOf(s: string, c: char): (r: Option<nat>)
    ensures r.None? <==> c !in s
    ensures r.Some? ==> r.value < |s| && s[r.value] == c && c !in s[r.value + 1..]
  {
    if s == [] then None
    else if s[|s| - 1] == c then Some(|s| - 1)
    else
      var r := LastIndexOf(s[..|s| - 1], c);
      assert s == s[..|s| - 1] + [s[|s| - 1]];
      r
  }

  /** name, tag = input.rsplit("#", 1); a ValueError (no '#') is None. */
  function ParseRiotId(input: string): (r: Option<RiotId>)
    ensures r.None? <==> '#' !in input
    ensures r.Some? ==> '#' !in r.value.tag && r.value.name + "#" + r.value.tag == input
  {
    match LastIndexOf(input, '#')
    case None => None
    case Some(k) =>
      assert input == input[..k] + "#" + input[k + 1..];
      Some(RiotId(input[..k], input[k + 1..]))
  }

  /** Formatting a name and a tag without '#' as Name#Tag and parsing it back gives both parts. */
  lemma ParseFormatRoundTrip(name: string, tag: string)
    requires '#' !in tag
    ensures ParseRiotId(name + "#" + tag) == Some(RiotId(name, tag))
  {
    var s := name + "#" + tag;
    assert s[|name|] == '#';
    var k := LastIndexOf(s, '#').value;
    assert k == |name|;
    assert s[..k] == name && s[k + 1..] == tag;
  }
}
