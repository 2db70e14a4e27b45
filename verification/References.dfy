/** Registry-relative references: repo, repo:tag or repo@digest. */
module References {
  import opened Sequences

  datatype Ref = Ref(repo: string, reference: string)

  predicate Lower(c: char) {
    'a' <= c <= 'z' || '0' <= c <= '9'
  }

  predicate TagHead(c: char) {
    'a' <= c <= 'z' || 'A' <= c <= 'Z' || '0' <= c <= '9' || c == '_'
  }

  predicate LowerHex(c: char) {
    '0' <= c <= '9' || 'a' <= c <= 'f'
  }

  /** Where a scan of the repository pattern stands inside a path component. */
  datatype Scan = Start | Word | AfterMark | AfterUnderscore | AfterDashes | Rejected

  function ScanChar(state: Scan, c: char): Scan {
    match state
    case Start => if Lower(c) then Word else Rejected
    case Word =>
      if Lower(c) then Word
      else if c == '/' then Start
      else if c == '.' then AfterMark
      else if c == '_' then AfterUnderscore
      else if c == '-' then AfterDashes
      else Rejected
    case AfterMark => if Lower(c) then Word else Rejected
    case AfterUnderscore => if Lower(c) then Word else if c == '_' then AfterMark else Rejected
    case AfterDashes => if Lower(c) then Word else if c == '-' then AfterDashes else Rejected
    case Rejected => Rejected
  }

  function ScanRepo(s: string): Scan {
    if s == [] then Start else ScanChar(ScanRepo(s[..|s| - 1]), s[|s| - 1])
  }

  /** The anchored repository pattern: slash-separated components of alphanumerics joined by '.', '_', '__' or dashes. */
  predicate RepoMatches(s: string) {
    ScanRepo(s) == Word
  }

  predicate IsWord(s: string) {
    s != [] && forall i :: 0 <= i < |s| ==> Lower(s[i])
  }

  predicate IsDashes(s: string) {
    s != [] && forall i :: 0 <= i < |s| ==> s[i] == '-'
  }

  /** What may stand between two words: a slash, which starts a new path component, or a mark inside one. */
  predicate IsJoint(s: string) {
    s == "/" || s == "." || s == "_" || s == "__" || IsDashes(s)
  }

  /** Words with a joint between any two neighbours. */
  function Joined(words: seq<string>, joints: seq<string>): string
    requires |words| == |joints| + 1
  {
    if joints == [] then words[0]
    else Joined(words[..|joints|], joints[..|joints| - 1]) + joints[|joints| - 1] + words[|joints|]
  }

  ghost predicate WellJoined(words: seq<string>, joints: seq<string>) {
    && |words| == |joints| + 1
    && (forall i :: 0 <= i < |words| ==> IsWord(words[i]))
    && (forall i :: 0 <= i < |joints| ==> IsJoint(joints[i]))
  }

  predicate TagMatches(s: string) {
    && 1 <= |s| <= 128
    && TagHead(s[0])
    && forall i :: 0 < i < |s| ==> TagHead(s[i]) || s[i] == '.' || s[i] == '-'
  }

  predicate HexAfter(s: string, prefix: string, length: nat) {
    && prefix <= s
    && |s| == |prefix| + length
    && forall i :: |prefix| <= i < |s| ==> LowerHex(s[i])
  }

  predicate DigestMatches(s: string) {
    HexAfter(s, "sha256:", 64) || HexAfter(s, "sha512:", 128)
  }

  /** Index of the first separator, or the length when there is none. */
  function Find(s: string, sep: char): (i: nat)
    ensures i <= |s|
    ensures i < |s| ==> s[i] == sep
    ensures forall j :: 0 <= j < i ==> s[j] != sep
  {
    if s == [] || s[0] == sep then 0 else 1 + Find(s[1..], sep)
  }

  function ParseRef(ref: string): Ref {
    var at := Find(ref, '@');
    var colon := Find(ref, ':');
    if 0 < at < |ref| then Ref(ref[..at], ref[at + 1..])
    else if 0 < colon < |ref| then Ref(ref[..colon], ref[colon + 1..])
    else Ref(ref, "latest")
  }

  predicate IsRelativeRef(ref: string) {
    var r := ParseRef(ref);
    if '@' in ref then RepoMatches(r.repo) && DigestMatches(r.reference)
    else RepoMatches(r.repo) && TagMatches(r.reference)
  }

  /** How a registry joins the two halves: '@' when the reference contains a colon, ':' otherwise. */
  function Join(r: Ref): string {
    r.repo + (if ':' in r.reference then "@" else ":") + r.reference
  }

  lemma ScanLast(s: string, c: char)
    ensures ScanRepo(s + [c]) == ScanChar(ScanRepo(s), c)
  {
    assert (s + [c])[..|s|] == s;
  }

  lemma {:induction false} ScanWord(s: string, word: string)
    requires ScanRepo(s) != Rejected && IsWord(word)
    ensures ScanRepo(s + word) == Word
  {
    var last := |word| - 1;
    assert s + word == (s + word[..last]) + [word[last]];
    ScanLast(s + word[..last], word[last]);
    if last == 0 {
      assert s + word[..last] == s;
    } else {
      ScanWord(s, word[..last]);
    }
  }

  lemma {:induction false} ScanDashes(s: string, dashes: string)
    requires ScanRepo(s) == Word && IsDashes(dashes)
    ensures ScanRepo(s + dashes) == AfterDashes
  {
    var last := |dashes| - 1;
    assert s + dashes == (s + dashes[..last]) + [dashes[last]];
    ScanLast(s + dashes[..last], dashes[last]);
    if last == 0 {
      assert s + dashes[..last] == s;
    } else {
      ScanDashes(s, dashes[..last]);
    }
  }

  lemma ScanJoint(s: string, joint: string)
    requires ScanRepo(s) == Word && IsJoint(joint)
    ensures ScanRepo(s + joint) != Rejected
  {
    if IsDashes(joint) {
      ScanDashes(s, joint);
    } else {
      ScanLast(s, joint[0]);
      if joint == "__" {
        ScanLast(s + "_", '_');
        assert s + "__" == s + "_" + "_";
      }
    }
  }

  lemma {:induction false} JoinedScans(words: seq<string>, joints: seq<string>)
    requires WellJoined(words, joints)
    ensures RepoMatches(Joined(words, joints))
  {
    var last := |joints| - 1;
    if joints == [] {
      ScanWord([], words[0]);
      assert [] + words[0] == words[0];
    } else {
      var front := Joined(words[..|joints|], joints[..last]);
      JoinedScans(words[..|joints|], joints[..last]);
      ScanJoint(front, joints[last]);
      ScanWord(front + joints[last], words[|joints|]);
    }
  }

  /** What a scan that is not rejected has read: words and joints, and the joint it is in the middle of. */
  ghost predicate HasRead(s: string, words: seq<string>, joints: seq<string>, open: string) {
    && WellJoined(words, joints)
    && s == Joined(words, joints) + open
    && match ScanRepo(s)
       case Word => open == ""
       case Start => open == "/"
       case AfterMark => open == "." || open == "__"
       case AfterUnderscore => open == "_"
       case AfterDashes => IsDashes(open)
       case Rejected => false
  }

  /** One more character of a joint. */
  lemma JointGrows(s: string, c: char, words: seq<string>, joints: seq<string>, open: string)
    requires HasRead(s, words, joints, open) && !Lower(c) && ScanRepo(s + [c]) != Rejected
    ensures HasRead(s + [c], words, joints, open + [c])
  {
    hide Joined;
    ScanLast(s, c);
    assert s + [c] == Joined(words, joints) + (open + [c]);
  }

  /** One more character of a word, or the first of the next. */
  lemma WordGrows(s: string, c: char, words: seq<string>, joints: seq<string>, open: string)
    returns (more: seq<string>, longer: seq<string>)
    requires HasRead(s, words, joints, open) && Lower(c)
    ensures HasRead(s + [c], more, longer, "")
  {
    hide WellJoined, Joined;
    ScanLast(s, c);
    if ScanRepo(s) == Word {
      more := LongerWord(words, joints, c);
      longer := joints;
    } else {
      more, longer := NextWord(words, joints, open, c);
    }
  }

  lemma {:induction false} ScanReads(s: string) returns (words: seq<string>, joints: seq<string>, open: string)
    requires s != [] && ScanRepo(s) != Rejected
    ensures HasRead(s, words, joints, open)
  {
    var last := |s| - 1;
    var init, c := s[..last], s[last];
    assert s == init + [c];
    if init == [] {
      words, joints, open := [s], [], "";
    } else {
      hide HasRead;
      words, joints, open := ScanReads(init);
      if Lower(c) {
        words, joints := WordGrows(init, c, words, joints, open);
        open := "";
      } else {
        JointGrows(init, c, words, joints, open);
        open := open + [c];
      }
    }
  }

  lemma LongerWord(words: seq<string>, joints: seq<string>, c: char) returns (more: seq<string>)
    requires WellJoined(words, joints) && Lower(c)
    ensures WellJoined(more, joints) && Joined(more, joints) == Joined(words, joints) + [c]
  {
    var last := |words| - 1;
    more := words[last := words[last] + [c]];
    assert more[..|joints|] == words[..|joints|];
  }

  lemma NextWord(words: seq<string>, joints: seq<string>, open: string, c: char) returns (more: seq<string>, longer: seq<string>)
    requires WellJoined(words, joints) && IsJoint(open) && Lower(c)
    ensures WellJoined(more, longer) && Joined(more, longer) == Joined(words, joints) + open + [c]
  {
    more, longer := words + [[c]], joints + [open];
    assert more[..|longer|] == words && longer[..|longer| - 1] == joints;
  }

  /** The pattern accepts exactly words of lower-case letters and digits, joined by '/', '.', '_', '__' or dashes. */
  lemma RepoIsJoinedWords(s: string)
    ensures RepoMatches(s) <==> exists words: seq<string>, joints: seq<string> :: WellJoined(words, joints) && s == Joined(words, joints)
  {
    if RepoMatches(s) {
      var words, joints, open := ScanReads(s);
      assert s == Joined(words, joints);
    }
    forall words: seq<string>, joints: seq<string> | WellJoined(words, joints) && s == Joined(words, joints)
      ensures RepoMatches(s)
    {
      JoinedScans(words, joints);
    }
  }

  lemma {:induction false} RepoCharacters(s: string)
    requires ScanRepo(s) != Rejected
    ensures ':' !in s && '@' !in s
  {
    if s != [] {
      var init := s[..|s| - 1];
      RepoCharacters(init);
      assert s == init + [s[|s| - 1]];
    }
  }

  lemma RepoHasNoSeparator(s: string)
    ensures RepoMatches(s) ==> ':' !in s && '@' !in s
  {
    if RepoMatches(s) {
      RepoCharacters(s);
    }
  }

  lemma SplitAt(s: string, t: string, sep: char)
    requires sep !in s
    ensures Find(s + [sep] + t, sep) == |s|
  {
    var whole := s + [sep] + t;
    assert whole[|s|] == sep;
    assert forall i :: 0 <= i < |s| ==> whole[i] == s[i];
  }

  /** The accepted references are exactly the three documented forms. */
  lemma AcceptedForms(ref: string)
    ensures IsRelativeRef(ref) <==>
      || RepoMatches(ref)
      || (exists repo: string, tag: string :: RepoMatches(repo) && TagMatches(tag) && ref == repo + ":" + tag)
      || (exists repo: string, digest: string :: RepoMatches(repo) && DigestMatches(digest) && ref == repo + "@" + digest)
  {
    if IsRelativeRef(ref) {
      AcceptedImpliesForm(ref);
    }
    if RepoMatches(ref) {
      RepoCharacters(ref);
      assert ParseRef(ref) == Ref(ref, "latest");
    }
    forall repo: string, tag: string | RepoMatches(repo) && TagMatches(tag) && ref == repo + ":" + tag
      ensures IsRelativeRef(ref)
    {
      TaggedFormParses(repo, tag);
    }
    forall repo: string, digest: string | RepoMatches(repo) && DigestMatches(digest) && ref == repo + "@" + digest
      ensures IsRelativeRef(ref)
    {
      DigestFormParses(repo, digest);
    }
  }

  lemma AcceptedImpliesForm(ref: string)
    requires IsRelativeRef(ref)
    ensures
      || RepoMatches(ref)
      || (exists repo: string, tag: string :: RepoMatches(repo) && TagMatches(tag) && ref == repo + ":" + tag)
      || (exists repo: string, digest: string :: RepoMatches(repo) && DigestMatches(digest) && ref == repo + "@" + digest)
  {
    var r := ParseRef(ref);
    var at, colon := Find(ref, '@'), Find(ref, ':');
    RepoCharacters(r.repo);
    if 0 < at < |ref| {
      assert ref[at] in ref;
      assert ref == r.repo + "@" + r.reference;
    } else if 0 < colon < |ref| {
      assert r.repo[0] == ref[0];
      assert ref == r.repo + ":" + r.reference;
    }
  }

  lemma TaggedFormParses(repo: string, tag: string)
    requires RepoMatches(repo) && TagMatches(tag)
    ensures ParseRef(repo + ":" + tag) == Ref(repo, tag)
    ensures IsRelativeRef(repo + ":" + tag)
  {
    var ref := repo + ":" + tag;
    RepoCharacters(repo);
    assert repo != [];
    SplitAt(repo, tag, ':');
    assert ref == repo + [':'] + tag;
    assert '@' !in tag && '@' !in ref;
    assert ref[..|repo|] == repo && ref[|repo| + 1..] == tag;
  }

  lemma DigestFormParses(repo: string, digest: string)
    requires RepoMatches(repo) && DigestMatches(digest)
    ensures ParseRef(repo + "@" + digest) == Ref(repo, digest)
    ensures IsRelativeRef(repo + "@" + digest)
  {
    var ref := repo + "@" + digest;
    RepoCharacters(repo);
    assert repo != [];
    SplitAt(repo, digest, '@');
    assert ref == repo + ['@'] + digest;
    assert ref[|repo|] == '@';
    assert ref[..|repo|] == repo && ref[|repo| + 1..] == digest;
  }

  /** A digest contains a colon, a tag does not: the joiner tells them apart by that. */
  lemma ColonTellsDigestFromTag(reference: string)
    ensures DigestMatches(reference) ==> ':' in reference
    ensures TagMatches(reference) ==> ':' !in reference
  {
    if DigestMatches(reference) {
      assert reference[6] == ':';
    }
  }

  /** Joining what ParseRef split gives the reference back, up to the default tag. */
  lemma JoinUndoesParse(ref: string)
    requires IsRelativeRef(ref)
    ensures Join(ParseRef(ref)) == if '@' in ref || ':' in ref then ref else ref + ":latest"
  {
    hide RepoMatches, DigestMatches, TagMatches;
    var r := ParseRef(ref);
    var at, colon := Find(ref, '@'), Find(ref, ':');
    RepoHasNoSeparator(r.repo);
    ColonTellsDigestFromTag(r.reference);
    if 0 < at < |ref| {
      assert ref[at] in ref;
      assert ref == r.repo + "@" + r.reference;
    } else if 0 < colon < |ref| {
      assert r.repo[0] == ref[0];
      assert ref[colon] in ref;
      assert ref == r.repo + ":" + r.reference;
    } else {
      assert r.repo == ref;
    }
  }

  // ----- The alphabets -----

  const LOWERS := "abcdefghijklmnopqrstuvwxyz"
  const UPPERS := "ABCDEFGHIJKLMNOPQRSTUVWXYZ"
  const FIGURES := "0123456789"

  lemma LowersAre(c: char)
    ensures c in LOWERS <==> 'a' <= c <= 'z'
  {
    if 'a' <= c <= 'z' {
      assert LOWERS[c as int - 'a' as int] == c;
    }
  }

  lemma UppersAre(c: char)
    ensures c in UPPERS <==> 'A' <= c <= 'Z'
  {
    if 'A' <= c <= 'Z' {
      assert UPPERS[c as int - 'A' as int] == c;
    }
  }

  lemma FiguresAre(c: char)
    ensures c in FIGURES <==> '0' <= c <= '9'
  {
    if '0' <= c <= '9' {
      assert FIGURES[c as int - '0' as int] == c;
    }
  }

  /** Repository words are made of lower-case letters and figures. */
  lemma WordsAre(s: string)
    ensures IsWord(s) <==> s != [] && forall i :: 0 <= i < |s| ==> s[i] in LOWERS || s[i] in FIGURES
  {
    forall i | 0 <= i < |s|
      ensures Lower(s[i]) <==> s[i] in LOWERS || s[i] in FIGURES
    {
      LowersAre(s[i]);
      FiguresAre(s[i]);
    }
  }

  /** A tag has 1 to 128 letters, figures, underscores, dots and dashes, and starts with neither dot nor dash. */
  lemma TagsAre(s: string)
    ensures TagMatches(s) <==>
      && 1 <= |s| <= 128 && s[0] != '.' && s[0] != '-'
      && forall i :: 0 <= i < |s| ==>
           s[i] in LOWERS || s[i] in UPPERS || s[i] in FIGURES || s[i] == '_' || s[i] == '.' || s[i] == '-'
  {
    forall i | 0 <= i < |s|
      ensures TagHead(s[i]) <==> s[i] in LOWERS || s[i] in UPPERS || s[i] in FIGURES || s[i] == '_'
    {
      LowersAre(s[i]);
      UppersAre(s[i]);
      FiguresAre(s[i]);
    }
  }

  ghost predicate IsHex(s: string) {
    forall i :: 0 <= i < |s| ==> s[i] in FIGURES || s[i] in "abcdef"
  }

  lemma HexIs(c: char)
    ensures LowerHex(c) <==> c in FIGURES || c in "abcdef"
  {
    FiguresAre(c);
    if 'a' <= c <= 'f' {
      assert "abcdef"[c as int - 'a' as int] == c;
    }
  }

  lemma HexAfterIs(s: string, prefix: string, length: nat)
    ensures HexAfter(s, prefix, length) <==> exists hex: string :: s == prefix + hex && |hex| == length && IsHex(hex)
  {
    if HexAfter(s, prefix, length) {
      var hex := s[|prefix|..];
      forall i | 0 <= i < |hex|
        ensures hex[i] in FIGURES || hex[i] in "abcdef"
      {
        HexIs(s[|prefix| + i]);
      }
      assert s == prefix + hex && IsHex(hex);
    }
    if hex :| s == prefix + hex && |hex| == length && IsHex(hex) {
      forall i | |prefix| <= i < |s|
        ensures LowerHex(s[i])
      {
        assert s[i] == hex[i - |prefix|];
        HexIs(s[i]);
      }
    }
  }

  /** A digest is "sha256:" and 64, or "sha512:" and 128, lower-case hex figures. */
  lemma DigestsAre(s: string)
    ensures DigestMatches(s) <==>
      || (exists hex: string :: s == "sha256:" + hex && |hex| == 64 && IsHex(hex))
      || (exists hex: string :: s == "sha512:" + hex && |hex| == 128 && IsHex(hex))
  {
    HexAfterIs(s, "sha256:", 64);
    HexAfterIs(s, "sha512:", 128);
  }

  // ----- Splitting any text -----

  /** Whether `ref` is cut by `sep` behind a non-empty name that does not contain it. */
  ghost predicate CutBy(ref: string, sep: char, name: string, rest: string) {
    name != [] && sep !in name && ref == name + [sep] + rest
  }

  lemma CutIsUnique(ref: string, sep: char, name: string, rest: string)
    requires CutBy(ref, sep, name, rest)
    ensures Find(ref, sep) == |name| && 0 < |name| < |ref| && ref[..|name|] == name && ref[|name| + 1..] == rest
  {
    SplitAt(name, rest, sep);
  }

  /** ParseRef on every text: a cut at '@' comes first, then one at ':', and what cannot be cut is a name tagged "latest". */
  lemma ParseRefCuts(ref: string, name: string, rest: string)
    ensures CutBy(ref, '@', name, rest) ==> ParseRef(ref) == Ref(name, rest)
    ensures (forall a: string, b: string :: !CutBy(ref, '@', a, b)) && CutBy(ref, ':', name, rest) ==> ParseRef(ref) == Ref(name, rest)
    ensures (forall a: string, b: string :: !CutBy(ref, '@', a, b) && !CutBy(ref, ':', a, b)) ==> ParseRef(ref) == Ref(ref, "latest")
  {
    if CutBy(ref, '@', name, rest) {
      CutIsUnique(ref, '@', name, rest);
    } else if CutBy(ref, ':', name, rest) {
      CutIsUnique(ref, ':', name, rest);
    }
    FoundIsCut(ref, '@');
    FoundIsCut(ref, ':');
  }

  lemma FoundIsCut(ref: string, sep: char)
    ensures 0 < Find(ref, sep) < |ref| ==> CutBy(ref, sep, ref[..Find(ref, sep)], ref[Find(ref, sep) + 1..])
  {
    var i := Find(ref, sep);
    if 0 < i < |ref| {
      assert ref == ref[..i] + [sep] + ref[i + 1..];
    }
  }
}
