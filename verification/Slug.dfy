/** Workspace slugs `<owner>--<repo>--<4hex>`: how they are minted and checked, and which
    repositories can share one. */
module Slug {
  import opened Wrappers
  import opened Text

  predicate SlugChar(c: char) {
    'A' <= c <= 'Z' || 'a' <= c <= 'z' || '0' <= c <= '9' || c == '.' || c == '_' || c == '-'
  }

  /** `/^[A-Za-z0-9._-]+$/`. */
  predicate SlugWord(s: string) {
    s != "" && forall c | c in s :: SlugChar(c)
  }

  predicate DoubleAt(s: string, i: nat) {
    i + 2 <= |s| && s[i] == '-' && s[i + 1] == '-'
  }

  /** `s.includes("--")`. */
  predicate HasDouble(s: string) {
    exists i: nat | i < |s| :: DoubleAt(s, i)
  }

  /** What `assertSlugSafeSegment` lets through. */
  predicate Segment(s: string) {
    SlugWord(s) && !HasDouble(s)
  }

  predicate HexDigit(c: char) {
    '0' <= c <= '9' || 'a' <= c <= 'f'
  }

  /** `/^[a-f0-9]{4}$/`. */
  predicate Hex4(s: string) {
    |s| == 4 && forall c | c in s :: HexDigit(c)
  }

  const SEP := "--"

  /** `/^[A-Za-z0-9._-]+--[A-Za-z0-9._-]+--[a-f0-9]{4}$/`: both greedy runs may swallow
      hyphens, so any cut will do. */
  predicate IsValidSlug(name: string) {
    exists i, j | 0 <= i < j <= |name| - 6 ::
      CutsSlug(name, i, j)
  }

  predicate CutsSlug(name: string, i: nat, j: nat) {
    && i + 2 <= j <= |name| - 2 && DoubleAt(name, i) && DoubleAt(name, j)
    && SlugWord(name[..i]) && SlugWord(name[i + 2..j]) && Hex4(name[j + 2..])
  }

  /** The last two path segments of a repository URL. */
  datatype Url = Url(owner: string, repo: string)

  function ParseOwnerRepo(url: Url): Result<Url> {
    if !Segment(url.owner) then Err("owner segment not representable in the slug grammar")
    else if !Segment(url.repo) then Err("repo segment not representable in the slug grammar")
    else Ok(url)
  }

  function Mint(owner: string, repo: string, suffix: string): string {
    owner + SEP + repo + SEP + suffix
  }

  function HexChar(n: nat): (c: char)
    requires n < 16
    ensures HexDigit(c)
  {
    if n < 10 then ('0' as int + n) as char else ('a' as int + (n - 10)) as char
  }

  type Byte = n: nat | n < 256

  datatype RandomBytes = RandomBytes(first: Byte, second: Byte)

  /** `randomBytes(2).toString("hex")`. */
  function RandomHex(r: RandomBytes): (s: string)
    ensures Hex4(s)
  {
    [HexChar(r.first / 16), HexChar(r.first % 16), HexChar(r.second / 16), HexChar(r.second % 16)]
  }

  /** `extra.slugSuffix`: absent, a string, or some other value. */
  datatype Hint = NoHint | Hint(s: string) | BadHint

  function ParseHint(hint: Hint): Result<Option<string>> {
    match hint
    case NoHint => Ok(None)
    case BadHint => Err("extra.slugSuffix must be 4 lowercase hex characters")
    case Hint(s) => if Hex4(s) then Ok(Some(s)) else Err("extra.slugSuffix must be 4 lowercase hex characters")
  }

  function BuildWorkspaceSlug(url: Url, hint: Hint, random: RandomBytes): Result<string>
  {
    match ParseHint(hint)
    case Err(e) => Err(e)
    case Ok(given) =>
      match ParseOwnerRepo(url)
      case Err(e) => Err(e)
      case Ok(u) => Ok(Mint(u.owner, u.repo, if given.Some? then given.value else RandomHex(random)))
  }

  datatype Info = Info(name: string, directory: string)

  function WorkspaceDir(root: string, slug: string): string {
    root + "/" + slug
  }

  function Configure(root: string, url: Url, hint: Hint, random: RandomBytes): Result<Info>
  {
    match BuildWorkspaceSlug(url, hint, random)
    case Err(e) => Err(e)
    case Ok(slug) =>
      if !IsValidSlug(slug) then Err("configure() produced invalid slug")
      else Ok(Info(slug, WorkspaceDir(root, slug)))
  }

  function ExpectedWorkspaceDir(root: string, info: Info): Result<string> {
    if !IsValidSlug(info.name) then Err("invalid workspace slug")
    else if info.directory != WorkspaceDir(root, info.name) then Err("workspace directory mismatch")
    else Ok(WorkspaceDir(root, info.name))
  }

  /** `assertSlugMatchesRepo` returns instead of throwing. */
  predicate SlugMatchesRepo(slug: string, url: Url) {
    && ParseOwnerRepo(url).Ok?
    && var prefix := url.owner + SEP + url.repo + SEP;
       prefix <= slug && Hex4(slug[|prefix|..])
  }

  // ---- Minted slugs pass ----

  lemma MintedIsValid(owner: string, repo: string, suffix: string)
    requires SlugWord(owner) && SlugWord(repo) && Hex4(suffix)
    ensures IsValidSlug(Mint(owner, repo, suffix))
  {
    hide SlugWord, Hex4;
    var slug, i, j := Mint(owner, repo, suffix), |owner|, |owner| + 2 + |repo|;
    assert |suffix| == 4 by { HexHasFour(suffix); }
    assert slug == owner + (SEP + repo + SEP + suffix) && slug == (owner + SEP + repo) + (SEP + suffix);
    assert slug[..i] == owner && slug[i + 2..j] == repo && slug[j + 2..] == suffix;
    assert CutsSlug(slug, i, j);
  }

  lemma HexHasFour(s: string)
    requires Hex4(s)
    ensures |s| == 4
  {
  }

  /** `configure` fails just for a bad segment or hint: its own slug check never does, and what
      it returns passes every later check made with the same URL. */
  lemma ConfiguredPasses(root: string, url: Url, hint: Hint, random: RandomBytes)
    ensures Configure(root, url, hint, random).Ok?
      <==> Segment(url.owner) && Segment(url.repo) && (hint.NoHint? || (hint.Hint? && Hex4(hint.s)))
    ensures Configure(root, url, hint, random).Ok? ==>
      var info := Configure(root, url, hint, random).value;
      && ExpectedWorkspaceDir(root, info) == Ok(info.directory)
      && SlugMatchesRepo(info.name, url)
      && info.directory == root + "/" + info.name && '/' !in info.name
  {
    hide IsValidSlug, HasDouble, SlugWord, Hex4, RandomHex;
    if Segment(url.owner) && Segment(url.repo) && ParseHint(hint).Ok? {
      var suffix := if hint.Hint? then hint.s else RandomHex(random);
      assert Hex4(suffix);
      MintedIsValid(url.owner, url.repo, suffix);
      MintedMatches(url, suffix);
      ValidIsOneComponent(Mint(url.owner, url.repo, suffix));
    }
  }

  lemma MintedMatches(url: Url, suffix: string)
    requires Segment(url.owner) && Segment(url.repo) && Hex4(suffix)
    ensures SlugMatchesRepo(Mint(url.owner, url.repo, suffix), url)
  {
    hide Segment, Hex4;
    var prefix := url.owner + SEP + url.repo + SEP;
    assert Mint(url.owner, url.repo, suffix) == prefix + suffix;
  }

  /** The check against a URL accepts owner, repo and four hex digits, and nothing else. */
  lemma MatchesExactlyMinted(slug: string, url: Url)
    ensures SlugMatchesRepo(slug, url)
      <==> Segment(url.owner) && Segment(url.repo) && exists suffix :: Hex4(suffix) && slug == Mint(url.owner, url.repo, suffix)
  {
    hide Segment, Hex4;
    var prefix := url.owner + SEP + url.repo + SEP;
    if SlugMatchesRepo(slug, url) {
      assert slug == prefix + slug[|prefix|..];
    }
    if Segment(url.owner) && Segment(url.repo) {
      if suffix :| Hex4(suffix) && slug == Mint(url.owner, url.repo, suffix) {
        MintedMatches(url, suffix);
      }
    }
  }

  /** A valid slug is one path component, and no relative one. */
  lemma ValidIsOneComponent(name: string)
    requires IsValidSlug(name)
    ensures '/' !in name && name != "." && name != ".."
  {
    hide Hex4, SlugWord;
    var i, j :| 0 <= i < j <= |name| - 6 && CutsSlug(name, i, j);
    var a, b, h := name[..i], name[i + 2..j], name[j + 2..];
    WordHasNoSlash(a, b, h);
    assert name == a + SEP + b + SEP + h;
  }

  lemma WordHasNoSlash(a: string, b: string, h: string)
    ensures SlugWord(a) && SlugWord(b) && Hex4(h) ==> '/' !in a && '/' !in b && '/' !in h
  {
  }

  // ---- The grammar, character by character ----

  /** ASCII letters and digits, by code point, and three more characters. */
  predicate NameChar(c: char) {
    65 <= c as int <= 90 || 97 <= c as int <= 122 || 48 <= c as int <= 57 || c in "._-"
  }

  lemma NameCharsAre(s: string)
    ensures SlugWord(s) <==> s != "" && forall c | c in s :: NameChar(c)
  {
    assert "._-"[0] == '.' && "._-"[1] == '_' && "._-"[2] == '-';
    assert forall c :: SlugChar(c) <==> NameChar(c);
  }

  lemma DoubleMeans(s: string)
    ensures HasDouble(s) <==> exists a, b :: s == a + "--" + b
  {
    if i: nat :| i < |s| && DoubleAt(s, i) {
      assert s == s[..i] + "--" + s[i + 2..];
    }
    if a, b :| s == a + "--" + b {
      assert s[|a|] == '-' && s[|a| + 1] == '-';
      assert DoubleAt(s, |a|);
    }
  }

  lemma Hex4Means(s: string)
    ensures Hex4(s) <==> |s| == 4 && forall c | c in s :: c in "0123456789abcdef"
  {
    forall c: char
      ensures HexDigit(c) <==> c in "0123456789abcdef"
    {
      HexDigitsAre(c);
    }
  }

  lemma HexCharIs(n: nat)
    requires n < 16
    ensures HexChar(n) == "0123456789abcdef"[n]
  {
    var digits := "0123456789abcdef";
    assert digits[0] == '0' && digits[1] == '1' && digits[2] == '2' && digits[3] == '3' && digits[4] == '4';
    assert digits[5] == '5' && digits[6] == '6' && digits[7] == '7' && digits[8] == '8' && digits[9] == '9';
    assert digits[10] == 'a' && digits[11] == 'b' && digits[12] == 'c' && digits[13] == 'd' && digits[14] == 'e' && digits[15] == 'f';
  }

  /** A segment: name characters, at least one, and no two hyphens in a row. */
  ghost predicate PlainName(s: string) {
    s != "" && (forall c | c in s :: NameChar(c)) && !exists a, b :: s == a + "--" + b
  }

  /** When `configure` succeeds, and what it returns: owner, repo and suffix between double
      hyphens, the suffix being the hint if one is given, else two random bytes in hexadecimal. */
  lemma ConfigureMeans(root: string, url: Url, hint: Hint, random: RandomBytes)
    ensures Configure(root, url, hint, random).Ok? <==> (
      && PlainName(url.owner) && PlainName(url.repo)
      && (hint.NoHint? || (hint.Hint? && |hint.s| == 4 && forall c | c in hint.s :: c in "0123456789abcdef")))
    ensures Configure(root, url, hint, random).Ok? ==>
      var digits := "0123456789abcdef";
      var suffix := if hint.Hint? then hint.s
        else [digits[random.first / 16], digits[random.first % 16], digits[random.second / 16], digits[random.second % 16]];
      var name := url.owner + "--" + url.repo + "--" + suffix;
      Configure(root, url, hint, random) == Ok(Info(name, root + "/" + name))
  {
    hide IsValidSlug, SlugWord, HasDouble, Hex4, NameChar, HexChar;
    ConfiguredPasses(root, url, hint, random);
    NameCharsAre(url.owner);
    NameCharsAre(url.repo);
    DoubleMeans(url.owner);
    DoubleMeans(url.repo);
    if hint.Hint? {
      Hex4Means(hint.s);
    }
    HexCharIs(random.first / 16);
    HexCharIs(random.first % 16);
    HexCharIs(random.second / 16);
    HexCharIs(random.second % 16);
  }

  /** What the slug check accepts: two names, which may hold double hyphens themselves, and four
      hexadecimal digits. */
  lemma ValidSlugMeans(name: string)
    ensures IsValidSlug(name) <==> exists a, b, h :: CutAs(name, a, b, h)
  {
    hide SlugWord, Hex4, NameChar;
    if IsValidSlug(name) {
      var i, j :| 0 <= i < j <= |name| - 6 && CutsSlug(name, i, j);
      var a, b, h := name[..i], name[i + 2..j], name[j + 2..];
      NameCharsAre(a);
      NameCharsAre(b);
      Hex4Means(h);
      assert name == a + "--" + b + "--" + h;
      assert CutAs(name, a, b, h);
    }
    if a, b, h :| CutAs(name, a, b, h) {
      NameCharsAre(a);
      NameCharsAre(b);
      Hex4Means(h);
      assert name == Mint(a, b, h);
      MintedIsValid(a, b, h);
    }
  }

  /** What every later step asks of a workspace: a valid slug, in its directory under the root. */
  lemma ExpectedDirMeans(root: string, info: Info)
    ensures ExpectedWorkspaceDir(root, info).Ok? <==> (exists a, b, h :: CutAs(info.name, a, b, h)) && info.directory == root + "/" + info.name
    ensures ExpectedWorkspaceDir(root, info).Ok? ==> ExpectedWorkspaceDir(root, info) == Ok(root + "/" + info.name)
  {
    hide IsValidSlug, CutAs;
    ValidSlugMeans(info.name);
  }

  predicate CutAs(name: string, a: string, b: string, h: string) {
    && name == a + "--" + b + "--" + h && a != "" && b != "" && (forall c | c in a + b :: NameChar(c))
    && |h| == 4 && forall c | c in h :: c in "0123456789abcdef"
  }

  // ---- Who can share a slug ----

  /** The hyphen at the seam can belong to either side. */
  predicate Shifted(a: Url, b: Url) {
    b.owner == a.owner + "-" && a.repo == "-" + b.repo
  }

  lemma SeamInside(a: Url, b: Url)
    requires |a.owner| + 2 <= |b.owner|
    requires a.owner + SEP + a.repo == b.owner + SEP + b.repo
    ensures HasDouble(b.owner)
  {
    var t := a.owner + SEP + a.repo;
    assert b.owner[|a.owner|] == t[|a.owner|] && b.owner[|a.owner| + 1] == t[|a.owner| + 1];
    assert DoubleAt(b.owner, |a.owner|);
  }

  lemma LongerOwner(a: Url, b: Url)
    requires Segment(b.owner) && |a.owner| <= |b.owner|
    requires a.owner + SEP + a.repo == b.owner + SEP + b.repo
    ensures a == b || Shifted(a, b)
  {
    hide HasDouble, SlugWord;
    var n := |b.owner| - |a.owner|;
    var t := a.owner + SEP + a.repo;
    assert t[..|a.owner|] == a.owner && t[..|b.owner|] == b.owner;
    assert t[|a.owner|..] == SEP + a.repo && t[|b.owner|..] == SEP + b.repo;
    if n >= 2 {
      SeamInside(a, b);
    } else if n == 1 {
      assert b.owner == a.owner + [t[|a.owner|]];
      assert SEP + a.repo == "-" + (SEP + b.repo);
      assert a.repo == (SEP + a.repo)[2..] && ("-" + (SEP + b.repo))[2..] == "-" + b.repo;
    } else {
      assert a.repo == (SEP + a.repo)[2..] && b.repo == (SEP + b.repo)[2..];
    }
  }

  lemma MintSplits(o: string, r: string, h: string)
    requires Hex4(h)
    ensures var s := Mint(o, r, h); |s| >= 6 && s[|s| - 4..] == h && s[..|s| - 6] == o + SEP + r
  {
    assert Mint(o, r, h) == (o + SEP + r) + (SEP + h);
  }

  lemma SharedIsShifted(a: Url, h: string, b: Url, h': string)
    requires Segment(a.owner) && Segment(b.owner) && Hex4(h) && Hex4(h')
    requires Mint(a.owner, a.repo, h) == Mint(b.owner, b.repo, h')
    ensures h == h' && (a == b || Shifted(a, b) || Shifted(b, a))
  {
    hide Hex4, Segment, Mint, Shifted;
    MintSplits(a.owner, a.repo, h);
    MintSplits(b.owner, b.repo, h');
    if |a.owner| <= |b.owner| {
      LongerOwner(a, b);
    } else {
      LongerOwner(b, a);
    }
  }

  lemma ShiftedIsShared(a: Url, b: Url, h: string)
    requires Shifted(a, b)
    ensures Mint(a.owner, a.repo, h) == Mint(b.owner, b.repo, h)
  {
    assert Mint(a.owner, a.repo, h) == a.owner + "-" + SEP + b.repo + SEP + h;
  }

  /** Two repositories share a slug exactly when they are the same, or the owner of one is the
      other's plus a hyphen and the hyphen leads the other's repo. */
  lemma SharedSlugs(a: Url, h: string, b: Url, h': string)
    requires Segment(a.owner) && Segment(a.repo) && Segment(b.owner) && Segment(b.repo) && Hex4(h) && Hex4(h')
    ensures Mint(a.owner, a.repo, h) == Mint(b.owner, b.repo, h')
      <==> h == h' && (a == b || Shifted(a, b) || Shifted(b, a))
  {
    hide Hex4, Segment, Mint, Shifted;
    if Mint(a.owner, a.repo, h) == Mint(b.owner, b.repo, h') {
      SharedIsShifted(a, h, b, h');
    }
    if Shifted(a, b) {
      ShiftedIsShared(a, b, h);
    }
    if Shifted(b, a) {
      ShiftedIsShared(b, a, h);
    }
  }

  /** So the check against another repository's URL is fooled exactly by the shifted hyphen. */
  lemma ForeignSlugAccepted(a: Url, h: string, b: Url)
    requires Segment(a.owner) && Segment(a.repo) && Segment(b.owner) && Segment(b.repo) && Hex4(h)
    ensures SlugMatchesRepo(Mint(a.owner, a.repo, h), b) <==> a == b || Shifted(a, b) || Shifted(b, a)
  {
    hide Hex4, Segment, Mint, SlugMatchesRepo, Shifted;
    MatchesExactlyMinted(Mint(a.owner, a.repo, h), b);
    SharedSlugs(a, h, b, h);
    if suffix :| Hex4(suffix) && Mint(a.owner, a.repo, h) == Mint(b.owner, b.repo, suffix) {
      SharedSlugs(a, h, b, suffix);
    }
  }

  lemma SharedSlugExample()
    ensures Segment("a-") && Segment("b") && Segment("a") && Segment("-b")
    ensures Mint("a-", "b", "0000") == Mint("a", "-b", "0000")
  {
    assert !DoubleAt("a-", 0) && !DoubleAt("-b", 0);
  }
}
