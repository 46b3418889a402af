/** `backend/src/middleware/upload.js`: how an uploaded photo is named,
 *  filtered, placed under its evrak's folder and thumbnailed, and how upload
 *  errors become responses. */
module Upload {
  import opened Wrappers
  import opened Strings

  const AllowedMimetypes: seq<string> := ["image/jpeg", "image/jpg", "image/png", "image/webp"]
  const AllowedExtensions: seq<string> := [".jpg", ".jpeg", ".png", ".webp"]
  const MaxFileSize: nat := 10 * 1024 * 1024
  const MaxFiles: nat := 10

  // ------------------------------------------------------ sanitizeFilename

  /** The Turkish letters the cleaner replaces, in the order it visits them. */
  const TurkishMap: seq<(char, char)> :=
    [('ç', 'c'), ('Ç', 'C'), ('ğ', 'g'), ('Ğ', 'G'), ('ı', 'i'), ('I', 'I'), ('İ', 'I'),
     ('i', 'i'), ('ö', 'o'), ('Ö', 'O'), ('ş', 's'), ('Ş', 'S'), ('ü', 'u'), ('Ü', 'U')]

  /** The Latin letter a character becomes; other characters stay. */
  function Latin(c: char): char
  {
    match c
    case 'ç' => 'c' case 'Ç' => 'C' case 'ğ' => 'g' case 'Ğ' => 'G'
    case 'ı' => 'i' case 'İ' => 'I' case 'ö' => 'o' case 'Ö' => 'O'
    case 'ş' => 's' case 'Ş' => 'S' case 'ü' => 'u' case 'Ü' => 'U'
    case _ => c
  }

  function Transliterated(s: string): (r: string)
    ensures |r| == |s| && forall i :: 0 <= i < |s| ==> r[i] == Latin(s[i])
  {
    if s == [] then []
    else
      var rest := Transliterated(s[1..]);
      assert forall i :: 1 <= i < |s| ==> ([Latin(s[0])] + rest)[i] == Latin(s[1..][i - 1]);
      [Latin(s[0])] + rest
  }

  /** One character after the first `k` replacements of the loop. */
  function AfterEntries(es: seq<(char, char)>, c: char): char
  {
    if es == [] then c
    else
      var d := AfterEntries(es[..|es| - 1], c);
      if d == es[|es| - 1].0 then es[|es| - 1].1 else d
  }

  lemma OneEntry(k: nat, c: char)
    requires k < |TurkishMap|
    ensures AfterEntries(TurkishMap[..k + 1], c) ==
      (if AfterEntries(TurkishMap[..k], c) == TurkishMap[k].0 then TurkishMap[k].1 else AfterEntries(TurkishMap[..k], c))
  {
    assert TurkishMap[..k + 1][..k] == TurkishMap[..k];
  }

  /** Replacing one entry after the other gives the table's letter: no
   *  replacement produces a letter a later entry would change again. */
  lemma AllEntriesAreLatin(c: char)
    ensures AfterEntries(TurkishMap, c) == Latin(c)
  {
    assert TurkishMap[..0] == [];
    OneEntry(0, c); OneEntry(1, c); OneEntry(2, c); OneEntry(3, c); OneEntry(4, c);
    OneEntry(5, c); OneEntry(6, c); OneEntry(7, c); OneEntry(8, c); OneEntry(9, c);
    OneEntry(10, c); OneEntry(11, c); OneEntry(12, c); OneEntry(13, c);
    assert TurkishMap[..14] == TurkishMap;
  }

  /** `s.split(a).join(b)`: every `a` becomes `b`. */
  function ReplaceChar(s: string, a: char, b: char): (r: string)
    ensures |r| == |s| && forall i :: 0 <= i < |s| ==> r[i] == (if s[i] == a then b else s[i])
  {
    if s == [] then [] else [if s[0] == a then b else s[0]] + ReplaceChar(s[1..], a, b)
  }

  /** `/\s+/g -> '_'`: each run of white space becomes one underscore (a
   *  space followed by another space drops, the last of a run becomes `_`). */
  function SpacesToUnderscore(s: string): (r: string)
    ensures |r| <= |s|
  {
    if s == [] then []
    else if IsJsSpace(s[0]) then
      if |s| > 1 && IsJsSpace(s[1]) then SpacesToUnderscore(s[1..]) else "_" + SpacesToUnderscore(s[1..])
    else [s[0]] + SpacesToUnderscore(s[1..])
  }

  /** `[a-zA-Z0-9_\-\.]` */
  predicate IsSafe(c: char)
  {
    'a' <= c <= 'z' || 'A' <= c <= 'Z' || '0' <= c <= '9' || c == '_' || c == '-' || c == '.'
  }

  predicate AllSafe(s: string)
  {
    forall i :: 0 <= i < |s| ==> IsSafe(s[i])
  }

  /** `/[^a-zA-Z0-9_\-\.]/g -> ''` */
  function KeepSafe(s: string): (r: string)
    ensures AllSafe(r) && |r| <= |s|
    ensures AllSafe(s) ==> r == s
  {
    if s == [] then [] else (if IsSafe(s[0]) then [s[0]] else []) + KeepSafe(s[1..])
  }

  predicate NoDoubleUnderscore(s: string)
  {
    forall i, j :: 0 <= i < |s| && 0 <= j < |s| && j == i + 1 ==> !(s[i] == '_' && s[j] == '_')
  }

  /** `/_+/g -> '_'` */
  function Squeeze(s: string): (r: string)
    ensures NoDoubleUnderscore(r) && |r| <= |s|
    ensures |s| > 0 ==> |r| > 0 && r[0] == s[0]
    ensures AllSafe(s) ==> AllSafe(r)
    ensures NoDoubleUnderscore(s) ==> r == s
  {
    if |s| < 2 then s
    else if s[0] == '_' && s[1] == '_' then Squeeze(s[1..])
    else [s[0]] + Squeeze(s[1..])
  }

  /** `/^_+/ -> ''` */
  function StripLeading(s: string): (r: string)
    ensures |r| <= |s| && r == s[|s| - |r|..]
    ensures r == [] || r[0] != '_'
    ensures forall i :: 0 <= i < |s| - |r| ==> s[i] == '_'
  {
    if s != [] && s[0] == '_' then StripLeading(s[1..]) else s
  }

  /** `/_+$/ -> ''` */
  function StripTrailing(s: string): (r: string)
    ensures |r| <= |s| && r == s[..|r|]
    ensures r == [] || r[|r| - 1] != '_'
    ensures forall i :: |r| <= i < |s| ==> s[i] == '_'
  {
    if s != [] && s[|s| - 1] == '_' then StripTrailing(s[..|s| - 1]) else s
  }

  /** `/^_+|_+$/g -> ''`: the underscores at both ends go. */
  function StripUnderscores(s: string): (r: string)
  {
    StripTrailing(StripLeading(s))
  }

  /** What the cleaner leaves: a non-empty name of safe characters with no
   *  doubled underscore and no underscore at either end. */
  predicate Clean(s: string)
  {
    s != [] && AllSafe(s) && NoDoubleUnderscore(s) && s[0] != '_' && s[|s| - 1] != '_'
  }

  /** The steps after transliteration; an empty result becomes `dosya`. */
  function Tidy(s: string): string
  {
    var t := StripUnderscores(Squeeze(KeepSafe(SpacesToUnderscore(s))));
    if t == [] then "dosya" else t
  }

  /** `sanitizeFilename` as a value. */
  function SanitizedName(filename: string): string
  {
    Tidy(Transliterated(filename))
  }

  /** `sanitizeFilename`: the replacement loop over the Turkish letters, then
   *  the four regular-expression passes and the `dosya` fallback. */
  method SanitizeFilename(filename: string) returns (r: string)
    ensures r == SanitizedName(filename)
  {
    var s := filename;
    var k := 0;
    while k < |TurkishMap|
      invariant 0 <= k <= |TurkishMap| && |s| == |filename|
      invariant forall i :: 0 <= i < |s| ==> s[i] == AfterEntries(TurkishMap[..k], filename[i])
    {
      assert TurkishMap[..k + 1][..k] == TurkishMap[..k];
      s := ReplaceChar(s, TurkishMap[k].0, TurkishMap[k].1);
      k := k + 1;
    }
    forall i | 0 <= i < |s| ensures s[i] == Latin(filename[i]) {
      assert TurkishMap[..k] == TurkishMap;
      AllEntriesAreLatin(filename[i]);
    }
    assert s == Transliterated(filename);
    r := Tidy(s);
  }

  lemma SubstringKeeps(s: string, a: int, b: int)
    requires 0 <= a <= b <= |s| && AllSafe(s) && NoDoubleUnderscore(s)
    ensures AllSafe(s[a..b]) && NoDoubleUnderscore(s[a..b])
  {
    var t := s[a..b];
    forall i, j | 0 <= i < |t| && 0 <= j < |t| && j == i + 1 ensures !(t[i] == '_' && t[j] == '_') {
      assert t[i] == s[a + i] && t[j] == s[a + j];
    }
  }

  lemma DosyaClean()
    ensures Clean("dosya")
  {
    var d := "dosya";
    assert forall i :: 0 <= i < |d| ==> IsSafe(d[i]) && d[i] != '_';
  }

  /** Stripping the ends of a safe name without doubled underscores leaves
   *  an empty or a clean name. */
  lemma StripClean(sq: string)
    requires AllSafe(sq) && NoDoubleUnderscore(sq)
    ensures StripUnderscores(sq) == [] || Clean(StripUnderscores(sq))
  {
    var l := StripLeading(sq);
    SubstringKeeps(sq, |sq| - |l|, |sq|);
    var t := StripTrailing(l);
    SubstringKeeps(l, 0, |t|);
    if t != [] {
      assert t[0] == l[0];
    }
  }

  /** Whatever the input, the result is clean. */
  lemma SanitizedIsClean(filename: string)
    ensures Clean(SanitizedName(filename))
  {
    StripClean(Squeeze(KeepSafe(SpacesToUnderscore(Transliterated(filename)))));
    DosyaClean();
  }

  lemma TransliteratedSafe(s: string)
    requires AllSafe(s)
    ensures Transliterated(s) == s
  {
    assert forall i :: 0 <= i < |s| ==> Latin(s[i]) == s[i];
  }

  /** A clean name is left as it is. */
  lemma CleanUnchanged(s: string)
    requires Clean(s)
    ensures SanitizedName(s) == s
  {
    TransliteratedSafe(s);
    TidyClean(s);
  }

  /** Sanitizing twice is sanitizing once. */
  lemma SanitizeIdempotent(filename: string)
    ensures SanitizedName(SanitizedName(filename)) == SanitizedName(filename)
  {
    SanitizedIsClean(filename);
    CleanUnchanged(SanitizedName(filename));
  }

  lemma {:induction false} SpacesAppend(a: string, b: string)
    requires NoJsSpace(a)
    ensures SpacesToUnderscore(a + b) == a + SpacesToUnderscore(b)
  {
    if a != [] {
      var ab := a + b;
      assert NoJsSpace(a[1..]) by {
        forall i | 0 <= i < |a| - 1 ensures !IsJsSpace(a[1..][i]) {
          assert a[1..][i] == a[i + 1];
        }
      }
      calc {
        SpacesToUnderscore(ab);
      == { assert ab[0] == a[0] && !IsJsSpace(a[0]); }
        [a[0]] + SpacesToUnderscore(ab[1..]);
      == { assert ab[1..] == a[1..] + b; }
        [a[0]] + SpacesToUnderscore(a[1..] + b);
      == { SpacesAppend(a[1..], b); }
        [a[0]] + (a[1..] + SpacesToUnderscore(b));
      == { assert [a[0]] + a[1..] == a; }
        a + SpacesToUnderscore(b);
      }
    } else {
      assert a + b == b && a + SpacesToUnderscore(b) == SpacesToUnderscore(b);
    }
  }

  lemma SpaceThen(b: string)
    requires b == [] || !IsJsSpace(b[0])
    ensures SpacesToUnderscore(" " + b) == "_" + SpacesToUnderscore(b)
  {
    assert (" " + b)[1..] == b;
  }

  lemma TidyClean(s: string)
    requires Clean(s)
    ensures Tidy(s) == s
  {
    assert NoJsSpace(s) by {
      forall i | 0 <= i < |s| ensures !IsJsSpace(s[i]) {
        assert IsSafe(s[i]);
      }
    }
    SpacesAppend(s, []);
    assert s + [] == s;
  }

  /** Turkish letters become Latin and a space an underscore. */
  lemma SanitizeExampleSpace()
    ensures SanitizedName("ş a") == "s_a"
  {
    TransliterateExample();
    SpacesExample();
    TidyClean("s_a");
  }

  lemma TransliterateExample()
    ensures Transliterated("ş a") == "s a"
  {
  }

  lemma SpacesExample()
    ensures SpacesToUnderscore("s a") == "s_a"
    ensures SpacesToUnderscore("s_a") == "s_a"
    ensures Clean("s_a")
  {
    assert "s a" == "s" + " a";
    SpacesAppend("s", " a");
    SpaceThen("a");
    assert SpacesToUnderscore("a") == "a";
    assert "s" + ("_" + "a") == "s_a";
    var c := "s_a";
    assert AllSafe(c);
    assert NoDoubleUnderscore(c);
    SpacesAppend(c, []);
    assert c + [] == c;
  }

  /** Characters outside the whitelist drop, and a name with nothing left
   *  becomes `dosya`. */
  lemma SanitizeExampleEmpty()
    ensures SanitizedName("(_)") == "dosya"
  {
    assert Transliterated("(_)") == "(_)";
    SpacesAppend("(_)", "");
    assert "(_)" + "" == "(_)";
    assert KeepSafe("(_)") == "_";
    assert StripUnderscores("_") == "";
  }

  // ------------------------------------------------ path.extname / basename

  /** The index of the last `.`, if any. */
  function LastDot(s: string): (r: Option<nat>)
    ensures r.Some? ==> r.value < |s| && s[r.value] == '.' && '.' !in s[r.value + 1..]
    ensures r.None? ==> '.' !in s
  {
    if s == [] then None
    else if s[|s| - 1] == '.' then Some(|s| - 1)
    else
      var r := LastDot(s[..|s| - 1]);
      assert s == s[..|s| - 1] + [s[|s| - 1]];
      r
  }

  /** `path.extname` of a bare file name: from the last dot on, unless there
   *  is none, it is the first character, or the name is `..`. */
  function Extname(s: string): (r: string)
    ensures r == [] || (r[0] == '.' && '.' !in r[1..] && EndsWith(s, r) && |r| < |s|)
  {
    match LastDot(s)
    case None => ""
    case Some(k) => if k == 0 || s == ".." then "" else s[k..]
  }

  /** `path.basename(s, ext)`: `ext` is cut off when the name ends with it
   *  exactly (the comparison is case-sensitive). */
  function Basename(s: string, ext: string): (r: string)
    ensures r == s || (EndsWith(s, ext) && ext != [] && r == s[..|s| - |ext|])
  {
    if ext != [] && |ext| <= |s| && s[|s| - |ext|..] == ext then
      if s == ext then "" else s[..|s| - |ext|]
    else s
  }

  // ------------------------------------------- generateUniqueFilename

  /** `generateUniqueFilename` with the clock and the random bytes as
   *  parameters: `<timestamp>_<random>_<clean stem><lower-case extension>`,
   *  where the stem is cut with the lower-cased extension. */
  function UniqueFilename(timestamp: nat, randomId: string, originalname: string): (r: string)
    ensures StartsWith(r, NatToString(timestamp) + "_" + randomId + "_")
    ensures EndsWith(r, ToLower(Extname(originalname)))
  {
    var ext := ToLower(Extname(originalname));
    var onEk := NatToString(timestamp) + "_" + randomId + "_";
    var ad := SanitizedName(Basename(originalname, ext));
    UcParca(onEk, ad, ext);
    onEk + ad + ext
  }

  /** The same name with the stem cut by the extension as written, so that
   *  its case does not matter. */
  function UniqueFilenameFixed(timestamp: nat, randomId: string, originalname: string): (r: string)
    ensures StartsWith(r, NatToString(timestamp) + "_" + randomId + "_")
    ensures EndsWith(r, ToLower(Extname(originalname)))
  {
    var ext := Extname(originalname);
    var onEk := NatToString(timestamp) + "_" + randomId + "_";
    var ad := SanitizedName(Basename(originalname, ext));
    UcParca(onEk, ad, ToLower(ext));
    onEk + ad + ToLower(ext)
  }

  /** A name put together from three parts starts with the first and ends
   *  with the last. */
  lemma UcParca(a: string, b: string, c: string)
    ensures StartsWith(a + b + c, a) && EndsWith(a + b + c, c)
  {
    var s := a + b + c;
    assert s[..|a|] == a;
    assert s[|s| - |c|..] == c;
  }

  /** Two texts that both start with a run of digits and `_` start with
   *  the same run. */
  lemma RakamOnEki(a: string, b: string, s: string)
    requires AllDigits(a) && AllDigits(b)
    requires StartsWith(s, a + "_") && StartsWith(s, b + "_")
    ensures a == b
  {
    RakamOnEkiKisa(a, b, s);
    RakamOnEkiKisa(b, a, s);
    assert a == (a + "_")[..|a|] == s[..|a|] == (b + "_")[..|b|] == b;
  }

  lemma RakamOnEkiKisa(a: string, b: string, s: string)
    requires AllDigits(b)
    requires StartsWith(s, a + "_") && StartsWith(s, b + "_")
    ensures |b| <= |a|
  {
    if |a| < |b| {
      OnEkKarakteri(s, a + "_", |a|);
      OnEkKarakteri(s, b + "_", |a|);
      assert false;
    }
  }

  lemma OnEkKarakteri(s: string, t: string, i: nat)
    requires StartsWith(s, t) && i < |t|
    ensures s[i] == t[i]
  {
    assert s[..|t|][i] == s[i];
  }

  /** Names generated at two different times differ, whatever the random
   *  part and the original names. */
  lemma FarkliZamanFarkliAd(t1: nat, t2: nat, r1: string, r2: string, o1: string, o2: string)
    requires t1 != t2
    ensures UniqueFilename(t1, r1, o1) != UniqueFilename(t2, r2, o2)
    ensures UniqueFilenameFixed(t1, r1, o1) != UniqueFilenameFixed(t2, r2, o2)
  {
    var a, b := NatToString(t1), NatToString(t2);
    DigitsValueOfNatToString(t1);
    DigitsValueOfNatToString(t2);
    forall s1, s2 | StartsWith(s1, a + "_" + r1 + "_") && StartsWith(s2, b + "_" + r2 + "_")
      ensures s1 != s2
    {
      assert StartsWith(s1, a + "_") by { assert (a + "_" + r1 + "_")[..|a| + 1] == a + "_"; }
      assert StartsWith(s2, b + "_") by { assert (b + "_" + r2 + "_")[..|b| + 1] == b + "_"; }
      if s1 == s2 {
        RakamOnEki(a, b, s1);
      }
    }
  }

  lemma PhotoJpgParts()
    ensures Extname("Photo.JPG") == ".JPG" && ToLower(".JPG") == ".jpg"
    ensures Basename("Photo.JPG", ".jpg") == "Photo.JPG" && Basename("Photo.JPG", ".JPG") == "Photo"
  {
    var n := "Photo.JPG";
    assert LastDot(n) == Some(5) by {
      assert n[..8] == "Photo.JP" && n[..8][..7] == "Photo.J" && n[..7][..6] == "Photo.";
      assert LastDot("Photo.") == Some(5);
    }
    assert n[5..] == ".JPG";
    assert n[|n| - 4..] == ".JPG" != ".jpg" by { assert ".JPG"[1] != ".jpg"[1]; }
    assert n[..|n| - 4] == "Photo";
  }

  lemma PhotoStemsClean()
    ensures SanitizedName("Photo.JPG") == "Photo.JPG" && SanitizedName("Photo") == "Photo"
  {
    assert Clean("Photo.JPG") by {
      var c := "Photo.JPG";
      assert AllSafe(c);
      assert NoDoubleUnderscore(c);
    }
    assert Clean("Photo") by {
      var c := "Photo";
      assert AllSafe(c);
      assert NoDoubleUnderscore(c);
    }
    CleanUnchanged("Photo.JPG");
    CleanUnchanged("Photo");
  }

  /** `.JPG` is not cut from `Photo.JPG`, because the lower-cased `.jpg` is
   *  compared case-sensitively: the stored name keeps a second extension. */
  lemma UpperCaseExtensionKept()
    ensures UniqueFilename(1, "ab", "Photo.JPG") == "1_ab_Photo.JPG.jpg"
    ensures UniqueFilenameFixed(1, "ab", "Photo.JPG") == "1_ab_Photo.jpg"
  {
    PhotoJpgParts();
    PhotoStemsClean();
    assert NatToString(1) == "1";
    PhotoNames();
  }

  lemma PhotoNames()
    ensures "1" + "_" + "ab" + "_" + "Photo.JPG" + ".jpg" == "1_ab_Photo.JPG.jpg"
    ensures "1" + "_" + "ab" + "_" + "Photo" + ".jpg" == "1_ab_Photo.jpg"
  {
  }

  lemma LastDotOfExtension(stem: string, e: string)
    requires |e| >= 2 && e[0] == '.' && '.' !in e[1..]
    ensures LastDot(stem + e) == Some(|stem|)
    decreases |e|
  {
    if |e| > 1 && e[|e| - 1] != '.' {
      assert (stem + e)[..|stem + e| - 1] == stem + e[..|e| - 1];
      if |e| > 2 {
        LastDotOfExtension(stem, e[..|e| - 1]);
      } else {
        assert e[..1] == ".";
        assert LastDot(stem + ".") == Some(|stem|);
      }
    }
  }

  lemma ExtensionOf(stem: string, e: string)
    requires stem != [] && |e| >= 2 && e[0] == '.' && '.' !in e[1..]
    ensures Extname(stem + e) == e && Basename(stem + e, e) == stem
  {
    LastDotOfExtension(stem, e);
    var n := stem + e;
    assert n[|stem|..] == e;
    assert n != ".." by { assert |n| >= 3; }
    assert n[|n| - |e|..] == e && n[..|n| - |e|] == stem;
  }

  /** With the fix, the case of the extension no longer matters: two names
   *  that differ only there are stored under the same name. */
  lemma FixedIgnoresExtensionCase(ts: nat, rid: string, stem: string, e1: string, e2: string)
    requires stem != [] && |e1| >= 2 && e1[0] == '.' && '.' !in e1[1..]
    requires |e2| >= 2 && e2[0] == '.' && '.' !in e2[1..]
    requires ToLower(e1) == ToLower(e2)
    ensures UniqueFilenameFixed(ts, rid, stem + e1) == UniqueFilenameFixed(ts, rid, stem + e2)
  {
    ExtensionOf(stem, e1);
    ExtensionOf(stem, e2);
  }

  // ------------------------------------------------------------ fileFilter

  datatype FilterResult = Accept | Reject(code: string, message: string)

  /** `fileFilter`: the MIME type first, then the lower-cased extension. */
  function FileFilter(mimetype: string, originalname: string): (r: FilterResult)
    ensures r.Accept? <==> mimetype in AllowedMimetypes && ToLower(Extname(originalname)) in AllowedExtensions
    ensures mimetype !in AllowedMimetypes ==> r.code == "INVALID_FILE_TYPE"
    ensures mimetype in AllowedMimetypes && r.Reject? ==> r.code == "INVALID_FILE_EXTENSION"
  {
    if mimetype !in AllowedMimetypes then
      Reject("INVALID_FILE_TYPE", "Desteklenmeyen dosya tipi: " + mimetype + ". İzin verilen: JPG, PNG, WEBP")
    else if ToLower(Extname(originalname)) !in AllowedExtensions then
      Reject("INVALID_FILE_EXTENSION", "Desteklenmeyen dosya uzantısı: " + ToLower(Extname(originalname)))
    else Accept
  }

  // ------------------------------------------------- processUploadedFile

  /** The relative folder of an evrak's photos, `uploads/evraklar/<id>/`. */
  function EvrakDir(evrakId: int): string
  {
    "uploads/evraklar/" + IntToString(evrakId) + "/"
  }

  /** `<stem>_thumb.jpg` for a stored file name. */
  function ThumbnailName(filename: string): (r: string)
    ensures EndsWith(r, "_thumb.jpg")
  {
    Basename(filename, Extname(filename)) + "_thumb.jpg"
  }

  /** A thumbnail never overwrites the photo it was made from. */
  lemma ThumbnailDiffers(filename: string)
    ensures ThumbnailName(filename) != filename
  {
    var ext := Extname(filename);
    var stem := Basename(filename, ext);
    if stem == filename {
      assert |ThumbnailName(filename)| > |filename|;
    } else {
      assert filename[|stem|] == ext[0] == '.';
      assert ThumbnailName(filename)[|stem|] == '_';
    }
  }

  datatype StoredFile = StoredFile(originalname: string, filename: string, size: int, mimetype: string)

  datatype ProcessedFile = ProcessedFile(
    dosyaAdi: string, dosyaYolu: string, thumbnailYolu: Option<string>,
    boyut: int, mimetype: string, genislik: int, yukseklik: int)

  /** `processUploadedFile`, with the image library's answers as parameters:
   *  the metadata (0 by 0 when unreadable) and whether the thumbnail could
   *  be written. A failed thumbnail leaves `thumbnail_yolu` null. */
  function ProcessUploadedFile(file: StoredFile, evrakId: int, width: int, height: int, thumbnailOk: bool)
    : (p: ProcessedFile)
    ensures p.dosyaAdi == file.originalname && p.boyut == file.size && p.mimetype == file.mimetype
    ensures p.dosyaYolu == EvrakDir(evrakId) + file.filename && StartsWith(p.dosyaYolu, EvrakDir(evrakId))
    ensures p.thumbnailYolu.Some? <==> thumbnailOk
    ensures p.thumbnailYolu.Some? ==> StartsWith(p.thumbnailYolu.value, EvrakDir(evrakId))
    ensures p.thumbnailYolu.Some? ==> p.thumbnailYolu.value != p.dosyaYolu
  {
    var thumb := EvrakDir(evrakId) + ThumbnailName(file.filename);
    ThumbnailDiffers(file.filename);
    assert thumb[..|EvrakDir(evrakId)|] == EvrakDir(evrakId);
    assert (EvrakDir(evrakId) + file.filename)[..|EvrakDir(evrakId)|] == EvrakDir(evrakId);
    if thumbnailOk then
      assert thumb != EvrakDir(evrakId) + file.filename by {
        assert thumb[|EvrakDir(evrakId)|..] == ThumbnailName(file.filename);
        assert (EvrakDir(evrakId) + file.filename)[|EvrakDir(evrakId)|..] == file.filename;
      }
      ProcessedFile(file.originalname, EvrakDir(evrakId) + file.filename, Some(thumb),
                    file.size, file.mimetype, width, height)
    else
      ProcessedFile(file.originalname, EvrakDir(evrakId) + file.filename, None,
                    file.size, file.mimetype, width, height)
  }

  // ----------------------------------------------------- handleUploadError

  datatype UploadError =
    | MulterError(code: string, message: string)
    | CodedError(code: string, message: string)
    | OtherError(message: string)

  datatype ErrorResponse = Respond(status: int, error: string, message: string) | PassOn

  /** `handleUploadError`: multer's errors and the filter's two codes become
   *  400 responses; anything else goes to the next handler. */
  function HandleUploadError(e: UploadError): (r: ErrorResponse)
    ensures r.Respond? ==> r.status == 400
    ensures r.PassOn? <==> e.OtherError? || (e.CodedError? && e.code != "INVALID_FILE_TYPE" && e.code != "INVALID_FILE_EXTENSION")
    ensures e.CodedError? && r.Respond? ==> r == Respond(400, "Geçersiz dosya tipi", e.message)
    ensures e == MulterError("LIMIT_FILE_SIZE", e.message) ==> r.message == "Maksimum dosya boyutu: 10MB"
  {
    match e
    case MulterError(code, message) =>
      if code == "LIMIT_FILE_SIZE" then
        Respond(400, "Dosya boyutu çok büyük", "Maksimum dosya boyutu: " + NatToString(MaxFileSize / (1024 * 1024)) + "MB")
      else if code == "LIMIT_FILE_COUNT" then
        Respond(400, "Çok fazla dosya", "Tek seferde en fazla 10 dosya yüklenebilir")
      else Respond(400, "Dosya yükleme hatası", message)
    case CodedError(code, message) =>
      if code == "INVALID_FILE_TYPE" || code == "INVALID_FILE_EXTENSION" then
        Respond(400, "Geçersiz dosya tipi", message)
      else PassOn
    case OtherError(_) => PassOn
  }

  // ------------------------------------------------ deleteFiles / folder

  /** `deleteFiles`: the photo and its thumbnail, each only if given. */
  function AfterDeleteFiles(disk: set<string>, dosyaYolu: Option<string>, thumbnailYolu: Option<string>)
    : (r: set<string>)
    ensures r <= disk
    ensures forall p :: p in disk && p !in r <==> p in disk && (Some(p) == dosyaYolu || Some(p) == thumbnailYolu)
  {
    disk - (if dosyaYolu.Some? then {dosyaYolu.value} else {})
         - (if thumbnailYolu.Some? then {thumbnailYolu.value} else {})
  }

  /** `deleteEvrakFolder`: every file under the evrak's folder. */
  function AfterDeleteFolder(disk: set<string>, evrakId: int): (r: set<string>)
    ensures forall p :: p in r <==> p in disk && !StartsWith(p, EvrakDir(evrakId))
  {
    set p | p in disk && !StartsWith(p, EvrakDir(evrakId))
  }
}
