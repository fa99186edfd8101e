/** Names under which a received file is stored (src/transfer/filetransfer.cpp). */
module FileNames {
  import opened Text

  const MAX_NAME: nat := 200
  const DEFAULT_NAME: string := "unnamed_file"

  predicate IsSeparator(c: char) {
    c == '/' || c == '\\' || c == '\0'
  }

  /** The part of a path after its last slash. */
  function LastComponent(path: string): string {
    path[LastIndexOf(path, '/') + 1..]
  }

  function WithoutSeparators(s: string): string {
    if s == "" then ""
    else if IsSeparator(s[0]) then WithoutSeparators(s[1..])
    else [s[0]] + WithoutSeparators(s[1..])
  }

  /** ".." stands at position i. */
  predicate DotsAt(s: string, i: int) {
    0 <= i < |s| - 1 && s[i] == '.' && s[i + 1] == '.'
  }

  predicate HasDots(s: string) {
    exists i :: 0 <= i < |s| && DotsAt(s, i)
  }

  /** The first position of ".." at or after `from`; |s| when there is none. */
  function FindDots(s: string, from: nat): (i: nat)
    requires from <= |s|
    ensures from <= i <= |s|
    ensures i < |s| ==> DotsAt(s, i)
    ensures forall j :: from <= j < i ==> !DotsAt(s, j)
    decreases |s| - from
  {
    if from == |s| || DotsAt(s, from) then from else FindDots(s, from + 1)
  }

  /** Erasing the leftmost ".." until none is left. */
  function WithoutDots(s: string): string
    decreases |s|
  {
    var i := FindDots(s, 0);
    if i == |s| then s else WithoutDots(s[..i] + s[i + 2..])
  }

  predicate OnlyDots(s: string) {
    forall i :: 0 <= i < |s| ==> s[i] == '.'
  }

  function Truncated(s: string): string {
    if |s| > MAX_NAME then s[..MAX_NAME] else s
  }

  function Sanitize(name: string): string {
    var safe := Truncated(WithoutDots(WithoutSeparators(LastComponent(name))));
    if OnlyDots(safe) then DEFAULT_NAME else safe
  }

  /** What a stored name must be: no way out of the directory, not empty, not too long. */
  predicate SafeName(n: string) {
    && n != "" && |n| <= 200 && !OnlyDots(n) && !HasDots(n)
    && forall i :: 0 <= i < |n| ==> n[i] != '/' && n[i] != '\\' && n[i] != '\0'
  }

  // The loops of sanitizeFileName

  method StripSeparators(s: string) returns (r: string)
    ensures r == WithoutSeparators(s)
  {
    r := "";
    var i := |s|;
    assert s[|s|..] == "";
    while i > 0
      invariant 0 <= i <= |s| && r == WithoutSeparators(s[i..])
    {
      i := i - 1;
      assert s[i..][0] == s[i] && s[i..][1..] == s[i + 1..];
      if !IsSeparator(s[i]) {
        r := [s[i]] + r;
      }
    }
    assert s[0..] == s;
  }

  method EraseDots(s: string) returns (r: string)
    ensures r == WithoutDots(s)
  {
    r := s;
    var pos := FindDots(r, 0);
    while pos != |r|
      invariant pos == FindDots(r, 0) && WithoutDots(r) == WithoutDots(s)
      decreases |r|
    {
      r := r[..pos] + r[pos + 2..];
      pos := FindDots(r, 0);
    }
  }

  method SanitizeFileName(name: string) returns (safe: string)
    ensures safe == Sanitize(name)
    ensures SafeName(safe)
  {
    safe := StripSeparators(LastComponent(name));
    safe := EraseDots(safe);
    if |safe| > MAX_NAME {
      safe := safe[..MAX_NAME];
    }
    var stripped := true;
    for i := 0 to |safe|
      invariant stripped <==> forall j :: 0 <= j < i ==> safe[j] == '.'
    {
      stripped := stripped && safe[i] == '.';
    }
    if safe == "" || stripped {
      safe := DEFAULT_NAME;
    }
    SanitizeIsSafe(name);
  }

  lemma {:induction false} NoSeparatorsLeft(s: string)
    ensures forall i :: 0 <= i < |WithoutSeparators(s)| ==> !IsSeparator(WithoutSeparators(s)[i])
  {
    if s != "" {
      NoSeparatorsLeft(s[1..]);
    }
  }

  lemma {:induction false} NoDotsLeft(s: string)
    requires forall i :: 0 <= i < |s| ==> !IsSeparator(s[i])
    ensures !HasDots(WithoutDots(s))
    ensures forall i :: 0 <= i < |WithoutDots(s)| ==> !IsSeparator(WithoutDots(s)[i])
    decreases |s|
  {
    var i := FindDots(s, 0);
    if i < |s| {
      NoDotsLeft(s[..i] + s[i + 2..]);
    }
  }

  lemma SanitizeIsSafe(name: string)
    ensures SafeName(Sanitize(name))
  {
    var stripped := WithoutSeparators(LastComponent(name));
    NoSeparatorsLeft(LastComponent(name));
    NoDotsLeft(stripped);
    var safe := Truncated(WithoutDots(stripped));
    if OnlyDots(safe) {
      assert DEFAULT_NAME[0] == 'u' && DEFAULT_NAME[7] == '_';
      assert forall i :: 0 <= i < |DEFAULT_NAME| ==> DEFAULT_NAME[i] != '.';
    } else {
      forall i | 0 <= i < |safe|
        ensures !DotsAt(safe, i)
      {
        assert !DotsAt(WithoutDots(stripped), i);
      }
    }
  }

  lemma {:induction false} NoSeparatorsToStrip(s: string)
    requires forall i :: 0 <= i < |s| ==> !IsSeparator(s[i])
    ensures WithoutSeparators(s) == s
  {
    if s != "" {
      NoSeparatorsToStrip(s[1..]);
    }
  }

  /** Sanitizing leaves a name alone exactly when it is already safe; in particular it is idempotent. */
  lemma SanitizeFixedIffSafe(name: string)
    ensures Sanitize(name) == name <==> SafeName(name)
    ensures Sanitize(Sanitize(name)) == Sanitize(name)
  {
    SanitizeIsSafe(name);
    if SafeName(name) {
      SafeIsFixed(name);
    }
    SafeIsFixed(Sanitize(name));
  }

  lemma SafeIsFixed(name: string)
    requires SafeName(name)
    ensures Sanitize(name) == name
  {
    NoSlashToCut(name);
    NoSeparatorsToStrip(name);
    NoDotsToErase(name);
  }

  lemma NoSlashToCut(name: string)
    requires forall i :: 0 <= i < |name| ==> !IsSeparator(name[i])
    ensures LastComponent(name) == name
  {
    assert LastIndexOf(name, '/') == -1;
  }

  lemma {:induction false} NoDotsToErase(name: string)
    requires !HasDots(name)
    ensures WithoutDots(name) == name
  {
    assert FindDots(name, 0) == |name|;
  }

  /**
   * Whatever directories stand before it, a last component survives that is safe but for its length, of which the first
   * 200 characters are kept.
   */
  lemma SafeComponentSurvives(name: string)
    requires var n := LastComponent(name);
      n != "" && n != "." && !HasDots(n) && forall i :: 0 <= i < |n| ==> n[i] != '/' && n[i] != '\\' && n[i] != '\0'
    ensures var n := LastComponent(name); Sanitize(name) == if |n| > 200 then n[..200] else n
  {
    var n := LastComponent(name);
    NoSeparatorsToStrip(n);
    NoDotsToErase(n);
    if |n| > 1 {
      assert !DotsAt(n, 0);
      assert Truncated(n)[0] == n[0] && Truncated(n)[1] == n[1];
    }
  }

  // Where the file goes: base directory + "/" + name

  /** One path component pushed on a normal form: "" and "." vanish, ".." takes the previous ordinary component back. */
  function Push(normal: seq<string>, absolute: bool, c: string): seq<string> {
    if c == "" || c == "." then normal
    else if c != ".." then normal + [c]
    else if normal != [] && normal[|normal| - 1] != ".." then normal[..|normal| - 1]
    else if absolute && normal == [] then normal
    else normal + [c]
  }

  /** lexically_normal on a path given by its components. */
  function Normal(components: seq<string>, absolute: bool): seq<string> {
    if components == [] then []
    else Push(Normal(components[..|components| - 1], absolute), absolute, components[|components| - 1])
  }

  function Join(components: seq<string>): string {
    if components == [] then ""
    else if |components| == 1 then components[0]
    else Join(components[..|components| - 1]) + "/" + components[|components| - 1]
  }

  function Render(components: seq<string>, absolute: bool): string {
    if absolute then "/" + Join(components)
    else if components == [] then "." else Join(components)
  }

  const APP_DIR: string := "naleystogramm"

  function HasPrefix(s: string, prefix: string): bool {
    |prefix| <= |s| && s[..|prefix|] == prefix
  }

  /** The path offered for a file, from the downloads directory given by its components. */
  function SafeDownloadPath(downloads: seq<string>, absolute: bool, fileName: string): string {
    var base := downloads + [APP_DIR];
    var candidate := Render(Normal(base + [Sanitize(fileName)], absolute), absolute);
    if HasPrefix(candidate, Render(Normal(base, absolute), absolute) + "/") then candidate
    else Render(base + [DEFAULT_NAME], absolute)
  }

  lemma {:induction false} NormalSnoc(components: seq<string>, absolute: bool, c: string)
    requires c != "" && c != "." && c != ".."
    ensures Normal(components + [c], absolute) == Normal(components, absolute) + [c]
  {
    assert (components + [c])[..|components|] == components;
  }

  /** Whatever name the peer sends, the file lands directly in the base directory under the sanitized name. */
  lemma {:induction false} DownloadStaysInBase(downloads: seq<string>, absolute: bool, fileName: string)
    ensures SafeDownloadPath(downloads, absolute, fileName)
         == Render(Normal(downloads + [APP_DIR], absolute), absolute) + "/" + Sanitize(fileName)
  {
    var base, safe := downloads + [APP_DIR], Sanitize(fileName);
    SanitizeIsSafe(fileName);
    SafeIsOrdinary(safe);
    NormalSnoc(base, absolute, safe);
    NormalSnoc(downloads, absolute, APP_DIR);
    var normal := Normal(base, absolute);
    RenderSnoc(normal, absolute, safe);
    var prefix := Render(normal, absolute) + "/";
    assert (prefix + safe)[..|prefix|] == prefix;
  }

  lemma SafeIsOrdinary(n: string)
    requires SafeName(n)
    ensures n != "" && n != "." && n != ".."
  {
    assert OnlyDots(".") && OnlyDots("..");
  }

  lemma RenderSnoc(normal: seq<string>, absolute: bool, c: string)
    requires normal != []
    ensures Render(normal + [c], absolute) == Render(normal, absolute) + "/" + c
  {
    assert (normal + [c])[..|normal|] == normal;
    assert Join(normal + [c]) == Join(normal) + "/" + c;
    assert "/" + (Join(normal) + "/" + c) == "/" + Join(normal) + "/" + c;
  }

  // The collision loop of finishReceiving

  /** The position at which a file name's extension starts: its last dot, unless that is the first character. */
  function ExtensionStart(fileName: string): (p: nat)
    ensures p <= |fileName|
  {
    var dot := LastIndexOf(fileName, '.');
    if dot <= 0 then |fileName| else dot
  }

  /** directory/stem (k).extension */
  function Numbered(path: string, k: nat): string {
    var cut := LastIndexOf(path, '/') + 1;
    var fileName := path[cut..];
    var p := ExtensionStart(fileName);
    path[..cut] + fileName[..p] + " (" + Decimal(k) + ")" + fileName[p..]
  }

  lemma Between(head: string, x: string, tail: string)
    ensures var s := head + x + tail;
      s[|head|..|s| - |tail|] == x
  {}

  lemma Regrouped(a: string, b: string, x: string, c: string)
    ensures a + b + " (" + x + ")" + c == (a + b + " (") + x + (")" + c)
  {}

  lemma NumberedInjective(path: string, j: nat, k: nat)
    requires Numbered(path, j) == Numbered(path, k)
    ensures j == k
  {
    hide ExtensionStart, LastIndexOf, Numeral;
    var cut := LastIndexOf(path, '/') + 1;
    var fileName := path[cut..];
    var p := ExtensionStart(fileName);
    var head, tail := path[..cut] + fileName[..p] + " (", ")" + fileName[p..];
    Regrouped(path[..cut], fileName[..p], Decimal(j), fileName[p..]);
    Regrouped(path[..cut], fileName[..p], Decimal(k), fileName[p..]);
    Between(head, Decimal(j), tail);
    Between(head, Decimal(k), tail);
    NumeralValue(j, 10);
    NumeralValue(k, 10);
  }

  function Directory(path: string): string {
    path[..LastIndexOf(path, '/') + 1]
  }

  function Stem(fileName: string): string {
    fileName[..ExtensionStart(fileName)]
  }

  function Extension(fileName: string): string {
    fileName[ExtensionStart(fileName)..]
  }

  lemma {:induction false} LastIndexOfNone(s: string, c: char)
    requires c !in s
    ensures LastIndexOf(s, c) == -1
  {
    assert forall j :: 0 <= j < |s| ==> s[j] != c;
  }

  /** A path is its directory and its last component, and no slash is in the latter. */
  lemma PathSplits(directory: string, fileName: string)
    requires '/' !in fileName && (directory == "" || directory[|directory| - 1] == '/')
    ensures Directory(directory + fileName) == directory && LastComponent(directory + fileName) == fileName
  {
    var path := directory + fileName;
    if directory == "" {
      assert path == fileName;
      LastIndexOfNone(path, '/');
    } else {
      assert forall j :: |directory| <= j < |path| ==> path[j] in fileName;
      LastIndexOfIs(path, '/', |directory| - 1);
    }
  }

  /** A file name is its stem and its extension, and an extension is a dot and what has no other dot. */
  lemma NameSplits(stem: string, extension: string)
    requires stem != "" && (extension == "" ==> '.' !in stem[1..])
    requires extension != "" ==> extension[0] == '.' && '.' !in extension[1..]
    ensures Stem(stem + extension) == stem && Extension(stem + extension) == extension
  {
    var name := stem + extension;
    if extension == "" {
      assert name == stem;
      assert forall j :: 0 < j < |stem| ==> stem[j] == stem[1..][j - 1];
    } else {
      assert forall j :: |stem| < j < |name| ==> name[j] == extension[1..][j - |stem| - 1];
      LastIndexOfIs(name, '.', |stem|);
    }
  }

  /** The stem and the extension of a name meet what makes them those of a name. */
  lemma NameParts(fileName: string)
    ensures var stem, extension := Stem(fileName), Extension(fileName);
      && fileName == stem + extension
      && (extension == "" ==> stem == "" || '.' !in stem[1..])
      && (extension != "" ==> stem != "" && extension[0] == '.' && '.' !in extension[1..])
  {
    var dot := LastIndexOf(fileName, '.');
    if dot > 0 {
      assert forall j :: 0 <= j < |fileName[dot..][1..]| ==> fileName[dot..][1..][j] == fileName[dot + 1 + j];
    } else {
      assert forall j :: 0 < j < |fileName| ==> fileName[j] != '.';
    }
  }

  lemma DecimalIsPlain(k: nat)
    ensures '/' !in Decimal(k) && '.' !in Decimal(k)
  {
    NumeralValue(k, 10);
    assert forall i :: 0 <= i < |Decimal(k)| ==> IsDigit(Decimal(k)[i], 10);
  }

  /** A numbered name stays in its directory, keeps its extension, and adds the number to its stem. */
  lemma NumberedKeeps(path: string, k: nat)
    requires LastComponent(path) != ""
    ensures var name, numbered := LastComponent(path), LastComponent(Numbered(path, k));
      && Directory(Numbered(path, k)) == Directory(path)
      && Stem(numbered) == Stem(name) + " (" + Decimal(k) + ")" && Extension(numbered) == Extension(name)
  {
    hide Numeral, ExtensionStart, LastIndexOf;
    var name := LastComponent(path);
    var stem, extension := Stem(name), Extension(name);
    var longer := stem + (" (" + Decimal(k) + ")");
    NameParts(name);
    DecimalIsPlain(k);
    NoSlashInLast(path);
    PlainSuffix(stem, Decimal(k), extension);
    PathSplits(Directory(path), longer + extension);
    NameSplits(longer, extension);
    Rejoined(Directory(path), stem, " (", Decimal(k), ")", extension);
  }

  lemma Rejoined(a: string, b: string, c: string, d: string, e: string, f: string)
    ensures a + b + c + d + e + f == a + (b + (c + d + e) + f) && b + c + d + e == b + (c + d + e)
  {}

  lemma NoSlashInLast(path: string)
    ensures '/' !in LastComponent(path) && (Directory(path) == "" || Directory(path)[|Directory(path)| - 1] == '/')
    ensures path == Directory(path) + LastComponent(path)
  {
    var cut := LastIndexOf(path, '/') + 1;
    assert forall j :: 0 <= j < |path[cut..]| ==> path[cut..][j] == path[cut + j];
  }

  lemma PlainSuffix(stem: string, number: string, extension: string)
    requires '/' !in number && '.' !in number && '/' !in stem + extension
    requires extension == "" ==> stem == "" || '.' !in stem[1..]
    ensures var longer := stem + (" (" + number + ")");
      '/' !in longer + extension && longer != "" && (extension == "" ==> '.' !in longer[1..])
  {
    var suffix := " (" + number + ")";
    assert '/' !in suffix && '.' !in suffix;
    forall c | c in stem || c in extension
      ensures c in stem + extension
    {}
    if stem == "" {
      assert stem + suffix == suffix;
    } else {
      assert (stem + suffix)[1..] == stem[1..] + suffix;
    }
  }

  /** The name tried at probe k: the path itself, then the numbered ones. */
  function Probe(path: string, k: nat): string {
    if k == 0 then path else Numbered(path, k)
  }

  lemma NumberedIsLonger(path: string, k: nat)
    ensures Numbered(path, k) != path
  {
    hide ExtensionStart, LastIndexOf, Numeral;
    var cut := LastIndexOf(path, '/') + 1;
    var p := ExtensionStart(path[cut..]);
    assert |Numbered(path, k)| > |path|;
  }

  /** Successive probes never repeat a name. */
  lemma ProbesDistinct(path: string, j: nat, k: nat)
    requires Probe(path, j) == Probe(path, k)
    ensures j == k
  {
    if j == 0 && k > 0 {
      NumberedIsLonger(path, k);
    } else if k == 0 && j > 0 {
      NumberedIsLonger(path, j);
    } else if j > 0 {
      NumberedInjective(path, j, k);
    }
  }

  ghost predicate Distinct(probe: nat -> string) {
    forall j, k | probe(j) == probe(k) :: j == k
  }

  ghost predicate Taken(existing: set<string>, probe: nat -> string, k: nat) {
    forall j: nat :: j < k ==> probe(j) in existing
  }

  lemma SubsetSize<T>(a: set<T>, b: set<T>)
    requires a <= b
    ensures |a| <= |b|
  {
    var rest := b - a;
    assert b == a + rest;
  }

  lemma {:induction false} ImageSize(probe: nat -> string, k: nat)
    requires Distinct(probe)
    ensures |set j: nat | j < k :: probe(j)| == k
  {
    var image := set j: nat | j < k :: probe(j);
    if k == 0 {
      assert image == {};
    } else {
      var smaller := set j: nat | j < k - 1 :: probe(j);
      ImageSize(probe, k - 1);
      assert image == smaller + {probe(k - 1)};
      assert probe(k - 1) !in smaller;
    }
  }

  /** Distinct names that all exist are no more than the existing names. */
  lemma TakenBounded(existing: set<string>, probe: nat -> string, k: nat)
    requires Distinct(probe) && Taken(existing, probe, k)
    ensures k <= |existing|
  {
    ImageSize(probe, k);
    SubsetSize(set j: nat | j < k :: probe(j), existing);
  }

  /** The number of the first free probe. */
  ghost function FirstFree(existing: set<string>, probe: nat -> string, k: nat): (n: nat)
    requires Distinct(probe) && Taken(existing, probe, k)
    ensures probe(n) !in existing && Taken(existing, probe, n)
    decreases |existing| - k
  {
    TakenBounded(existing, probe, k);
    if probe(k) !in existing then k
    else
      TakenBounded(existing, probe, k + 1);
      FirstFree(existing, probe, k + 1)
  }

  ghost function FreeName(existing: set<string>, path: string): (r: string)
    ensures r !in existing
  {
    var probe := (k: nat) => Probe(path, k);
    assert Distinct(probe) by {
      forall j: nat, k: nat | probe(j) == probe(k) ensures j == k { ProbesDistinct(path, j, k); }
    }
    Probe(path, FirstFree(existing, probe, 0))
  }

  lemma FirstFreeUnique(existing: set<string>, probe: nat -> string, m: nat, n: nat)
    requires Taken(existing, probe, m) && probe(m) !in existing
    requires Taken(existing, probe, n) && probe(n) !in existing
    ensures m == n
  {}

  /** The loop stops at the first name not in use, after at most one probe more than there are files. */
  method PickFreeName(existing: set<string>, path: string) returns (finalPath: string, counter: nat)
    ensures finalPath !in existing && finalPath == Probe(path, counter)
    ensures forall j: nat :: j < counter ==> Probe(path, j) in existing
    ensures counter <= |existing|
    ensures finalPath == FreeName(existing, path)
  {
    ghost var probe := (k: nat) => Probe(path, k);
    assert Distinct(probe) by {
      forall j: nat, k: nat | probe(j) == probe(k) ensures j == k { ProbesDistinct(path, j, k); }
    }
    finalPath := path;
    counter := 0;
    TakenBounded(existing, probe, 0);
    while finalPath in existing
      invariant finalPath == probe(counter)
      invariant Taken(existing, probe, counter)
      invariant counter <= |existing|
      decreases |existing| - counter
    {
      TakenBounded(existing, probe, counter + 1);
      counter := counter + 1;
      finalPath := Numbered(path, counter);
    }
    FirstFreeUnique(existing, probe, counter, FirstFree(existing, probe, 0));
    forall j: nat | j < counter
      ensures Probe(path, j) in existing
    {
      assert probe(j) in existing;
    }
  }
}
