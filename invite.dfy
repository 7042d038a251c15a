/** The invite code taken from an invite link: `invite.split('/').pop()`. */
module Invite {

  /** The text after the last '/' of s (all of s when it has no '/'). */
  function LastSegment(s: string): (r: string)
    ensures |r| <= |s| && r == s[|s| - |r|..]
    ensures '/' !in r
    ensures |r| == |s| || s[|s| - |r| - 1] == '/'
  {
    if s == [] then []
    else if s[|s| - 1] == '/' then []
    else
      var init := s[..|s| - 1];
      var r := LastSegment(init) + [s[|s| - 1]];
      assert init[|init| - (|r| - 1)..] + [s[|s| - 1]] == s[|s| - |r|..];
      r
  }

  /** The three properties of LastSegment determine it: no other suffix has them. */
  lemma LastSegmentUnique(s: string, r: string)
    requires |r| <= |s| && r == s[|s| - |r|..]
    requires '/' !in r
    requires |r| == |s| || s[|s| - |r| - 1] == '/'
    ensures r == LastSegment(s)
  {
    var t := LastSegment(s);
    assert |r| == |t|;
  }

  /** The code extracted from the first configured invite link. */
  lemma FirstInviteCode()
    ensures LastSegment("https://discord.gg/uhsnuMdx69") == "uhsnuMdx69"
  {
    var s := "https://discord.gg/uhsnuMdx69";
    assert s[|s| - 10..] == "uhsnuMdx69";
    assert s[|s| - 11] == '/';
    LastSegmentUnique(s, "uhsnuMdx69");
  }
}
