/**
 * Decoding of a component's custom id (src/index.ts, onComponent): the id proper is the
 * text before the first `-`, and every character after it, dashes dropped, is an access flag.
 */
module CustomId {
  import opened Strings

  /** What onComponent writes back into `i.data`: the bare `custom_id` and the `flags` list. */
  datatype DecodedId = DecodedId(id: string, flags: seq<char>)

  /** `s.split('-').join('')`: the characters of `s` in their order, every `-` dropped. */
  function WithoutDashes(s: string): (r: string)
    ensures '-' !in r
    ensures |r| <= |s|
    ensures forall c | c != '-' :: multiset(r)[c] == multiset(s)[c]
  {
    if s == [] then []
    else
      var rest := WithoutDashes(s[1..]);
      assert s == [s[0]] + s[1..];
      if s[0] == '-' then rest else [s[0]] + rest
  }

  /** Dropping dashes works piece by piece, so the order of the flag characters is kept. */
  lemma {:induction false} WithoutDashesAppend(a: string, b: string)
    ensures WithoutDashes(a + b) == WithoutDashes(a) + WithoutDashes(b)
  {
    if a == [] {
      assert a + b == b;
    } else {
      assert (a + b)[1..] == a[1..] + b;
      WithoutDashesAppend(a[1..], b);
    }
  }

  /** A dash-free string passes through unchanged, duplicates included. */
  lemma {:induction false} WithoutDashesKeeps(s: string)
    requires '-' !in s
    ensures WithoutDashes(s) == s
  {
    if s != [] {
      WithoutDashesKeeps(s[1..]);
    }
  }

  /**
   * src/index.ts:244-250. Without a `-` nothing changes and the flag list is empty; with one,
   * `raw` is the dash-free id, a `-`, and a rest whose dash-free characters are the flags.
   */
  function DecodeCustomId(raw: string): (d: DecodedId)
    ensures '-' !in raw ==> d == DecodedId(raw, [])
    ensures '-' !in d.id && '-' !in d.flags
    ensures '-' in raw ==>
      && |d.id| < |raw|
      && raw == d.id + "-" + raw[|d.id| + 1..]
      && d.flags == WithoutDashes(raw[|d.id| + 1..])
  {
    if '-' in raw then
      var id := raw[..IndexOf(raw, '-')];
      assert raw == id + "-" + raw[|id| + 1..];
      DecodedId(id, WithoutDashes(raw[|id| + 1..]))
    else
      DecodedId(raw, [])
  }

  /** Whatever follows the first `-`, a dash-free id in front of it comes back as the id. */
  lemma DecodeSplitsAtFirstDash(id: string, rest: string)
    requires '-' !in id
    ensures DecodeCustomId(id + "-" + rest) == DecodedId(id, WithoutDashes(rest))
  {
    var raw := id + "-" + rest;
    assert raw[|id|] == '-';
    assert raw[..|id|] == id;
    assert IndexOf(raw, '-') == |id|;
    assert raw[|id| + 1..] == rest;
  }

  /** Round trip: a dash-free id joined by `-` to dash-free flag characters decodes to both. */
  lemma DecodeJoined(id: string, flags: seq<char>)
    requires '-' !in id && '-' !in flags
    ensures DecodeCustomId(id + "-" + flags) == DecodedId(id, flags)
  {
    DecodeSplitsAtFirstDash(id, flags);
    WithoutDashesKeeps(flags);
  }
}
