/**
 * File-name rules of the tool: which directory entries are images, how the
 * original and augmented copies are named, and which container format a save
 * uses.
 */
module Paths {
  import opened Imaging

  predicate EndsWith(s: string, suffix: string)
  {
    |suffix| <= |s| && s[|s| - |suffix|..] == suffix
  }

  /** `str.lower()` on ASCII letters. */
  function LowerChar(c: char): char
  {
    if 'A' <= c <= 'Z' then (c as int + 32) as char else c
  }

  function Lower(s: string): string
  {
    seq(|s|, i requires 0 <= i < |s| => LowerChar(s[i]))
  }

  lemma LowerIdempotent(s: string)
    ensures Lower(Lower(s)) == Lower(s)
  {
    assert forall i :: 0 <= i < |s| ==> Lower(Lower(s))[i] == Lower(s)[i];
  }

  lemma LowerAppend(a: string, b: string)
    ensures Lower(a + b) == Lower(a) + Lower(b)
  {
    assert forall i :: 0 <= i < |a + b| ==> Lower(a + b)[i] == (Lower(a) + Lower(b))[i];
  }

  /** The case-sensitive extension test of `load_images`. */
  predicate IsImageFile(name: string)
  {
    EndsWith(name, ".png") || EndsWith(name, ".jpg") || EndsWith(name, ".jpeg") || EndsWith(name, ".bmp")
  }

  /** The directory entries `load_images` keeps, in listing order. */
  function FilterImages(listing: seq<string>): (r: seq<string>)
    ensures forall f :: f in r <==> f in listing && IsImageFile(f)
    ensures |r| <= |listing|
  {
    if listing == [] then []
    else (if IsImageFile(listing[0]) then [listing[0]] else []) + FilterImages(listing[1..])
  }

  /** Filtering a listing piece by piece gives the filtered pieces in the same order. */
  lemma {:induction false} FilterImagesAppend(a: seq<string>, b: seq<string>)
    ensures FilterImages(a + b) == FilterImages(a) + FilterImages(b)
  {
    if a == [] {
      assert a + b == b;
    } else {
      assert (a + b)[1..] == a[1..] + b;
      FilterImagesAppend(a[1..], b);
    }
  }

  /** The filter is case-sensitive: an upper-case extension is not an image. */
  lemma UpperCaseExtensionIsNotImage()
    ensures !IsImageFile("b.PNG")
  {
    var s := "b.PNG";
    assert s[|s| - 4..][1] == 'P';
    assert s[0] == 'b';
  }

  /** `os.path.join(dir, name)` on POSIX. */
  function Join(dir: string, name: string): string
  {
    if |name| > 0 && name[0] == '/' then name
    else if dir == [] || dir[|dir| - 1] == '/' then dir + name
    else dir + "/" + name
  }

  /**
   * The joined path ends with the name, and starts with the directory unless
   * the name is absolute.
   */
  lemma JoinParts(dir: string, name: string)
    ensures EndsWith(Join(dir, name), name)
    ensures !(|name| > 0 && name[0] == '/') ==> Join(dir, name)[..|dir|] == dir
    ensures |name| > 0 && name[0] == '/' ==> Join(dir, name) == name
  {
    var r := Join(dir, name);
    if !(|name| > 0 && name[0] == '/') {
      var sep := if dir == [] || dir[|dir| - 1] == '/' then "" else "/";
      assert r == dir + sep + name;
      assert r[|r| - |name|..] == name;
    }
  }

  /** `str.rfind(c)`: the last index holding `c`, or -1. */
  function RFind(s: string, c: char): (r: int)
    ensures -1 <= r < |s|
  {
    if s == [] then -1
    else if s[|s| - 1] == c then |s| - 1
    else RFind(s[..|s| - 1], c)
  }

  /** `rfind` finds the last occurrence: `c` is at the index found and nowhere after it. */
  lemma {:induction false} RFindLast(s: string, c: char)
    ensures RFind(s, c) >= 0 ==> s[RFind(s, c)] == c
    ensures forall j :: RFind(s, c) < j < |s| ==> s[j] != c
  {
    if s != [] && s[|s| - 1] != c {
      var t := s[..|s| - 1];
      RFindLast(t, c);
      forall j | RFind(s, c) < j < |s| ensures s[j] != c {
        if j < |s| - 1 {
          assert s[j] == t[j];
        }
      }
    }
  }

  /** An index holding `c` with no `c` after it is what `rfind` returns. */
  lemma RFindAt(s: string, c: char, k: nat)
    requires k < |s| && s[k] == c
    requires forall j :: k < j < |s| ==> s[j] != c
    ensures RFind(s, c) == k
  {
    RFindLast(s, c);
  }

  /** `rfind` of a character that does not occur is -1. */
  lemma RFindAbsent(s: string, c: char)
    requires forall j :: 0 <= j < |s| ==> s[j] != c
    ensures RFind(s, c) == -1
  {
    RFindLast(s, c);
  }

  predicate AllDots(s: string)
  {
    forall j :: 0 <= j < |s| ==> s[j] == '.'
  }

  /** An extension as `splitext` returns it: empty, or a dot followed by no dot and no separator. */
  predicate IsExtension(e: string)
  {
    e == [] || (e[0] == '.' && forall j :: 1 <= j < |e| ==> e[j] != '.' && e[j] != '/')
  }

  lemma TailAfterLastDot(p: string, dotIndex: int, sepIndex: int)
    requires -1 <= sepIndex < dotIndex < |p| && p[dotIndex] == '.'
    requires forall j :: dotIndex < j < |p| ==> p[j] != '.'
    requires forall j :: sepIndex < j < |p| ==> p[j] != '/'
    ensures IsExtension(p[dotIndex..])
  {
    var e := p[dotIndex..];
    forall j | 1 <= j < |e| ensures e[j] != '.' && e[j] != '/' {
      assert e[j] == p[dotIndex + j];
    }
  }

  /**
   * `os.path.splitext(p)` on POSIX: the extension starts at the last dot of
   * the last path component, unless everything before that dot in the
   * component is dots (".png" and "..png" have no extension).
   */
  function Splitext(p: string): (r: (string, string))
    ensures r.0 + r.1 == p
  {
    var sepIndex := RFind(p, '/');
    var dotIndex := RFind(p, '.');
    if dotIndex > sepIndex && !AllDots(p[sepIndex + 1..dotIndex]) then
      assert p[..dotIndex] + p[dotIndex..] == p;
      (p[..dotIndex], p[dotIndex..])
    else (p, [])
  }

  /** What `splitext` splits off is empty or a single dotted extension of the last component. */
  lemma SplitextExtension(p: string)
    ensures IsExtension(Splitext(p).1)
  {
    var sepIndex := RFind(p, '/');
    var dotIndex := RFind(p, '.');
    if dotIndex > sepIndex && !AllDots(p[sepIndex + 1..dotIndex]) {
      assert Splitext(p).1 == p[dotIndex..];
      RFindLast(p, '.');
      assert 0 <= dotIndex && p[dotIndex] == '.';
      assert forall j :: dotIndex < j < |p| ==> p[j] != '.';
      RFindLast(p, '/');
      assert forall j :: sepIndex < j < |p| ==> p[j] != '/';
      TailAfterLastDot(p, dotIndex, sepIndex);
    }
  }

  /** A stem that is a plain file name with a non-dot character keeps its extension apart. */
  lemma SplitextOfStemAndExtension(stem: string, ext: string)
    requires forall j :: 0 <= j < |stem| ==> stem[j] != '/'
    requires !AllDots(stem)
    requires ext != [] && IsExtension(ext)
    ensures Splitext(stem + ext) == (stem, ext)
  {
    var p := stem + ext;
    forall j | |stem| < j < |p| ensures p[j] != '.' {
      assert p[j] == ext[j - |stem|];
    }
    RFindAt(p, '.', |stem|);
    forall j | 0 <= j < |p| ensures p[j] != '/' {
      if j < |stem| {
        assert p[j] == stem[j];
      } else {
        assert p[j] == ext[j - |stem|];
      }
    }
    RFindAbsent(p, '/');
    var sepIndex := RFind(p, '/');
    var dotIndex := RFind(p, '.');
    assert p[sepIndex + 1..dotIndex] == stem;
    assert p[..dotIndex] == stem && p[dotIndex..] == ext;
  }

  /** A file named only by its extension gets no extension from `splitext`. */
  lemma SplitextOfBareExtension()
    ensures Splitext(".jpg") == (".jpg", "")
  {
    var p := ".jpg";
    assert p[0] == '.' && p[1] != '.' && p[2] != '.' && p[3] != '.';
    RFindAt(p, '.', 0);
  }

  /** Name of the saved original: "original_" + the input file name. */
  function OriginalName(name: string): string
  {
    "original_" + name
  }

  /** The original's name is the input name behind a nine-character prefix. */
  lemma OriginalNameEndsWithName(name: string)
    ensures |OriginalName(name)| == |name| + 9
    ensures EndsWith(OriginalName(name), name)
    ensures OriginalName(name)[..9] == "original_"
  {
  }

  /** Name of the augmented copy: "_augmented" inserted between stem and extension. */
  function AugmentedName(name: string): string
  {
    var parts := Splitext(name);
    parts.0 + "_augmented" + parts.1
  }

  /**
   * The augmented name is ten characters longer than the input name, starts
   * with its stem and ends with its extension.
   */
  lemma AugmentedNameKeepsExtension(name: string)
    ensures |AugmentedName(name)| == |name| + 10
    ensures AugmentedName(name)[..|Splitext(name).0|] == Splitext(name).0
    ensures EndsWith(AugmentedName(name), Splitext(name).1)
  {
    var parts := Splitext(name);
    var r := AugmentedName(name);
    assert r == parts.0 + "_augmented" + parts.1;
    assert r[|r| - |parts.1|..] == parts.1;
  }

  lemma AugmentedNameOf(stem: string, ext: string)
    requires forall j :: 0 <= j < |stem| ==> stem[j] != '/'
    requires !AllDots(stem)
    requires ext != [] && IsExtension(ext)
    ensures AugmentedName(stem + ext) == stem + "_augmented" + ext
  {
    SplitextOfStemAndExtension(stem, ext);
  }

  /** Format chosen by `save_image`: RGBA always PNG; else JPEG for a .jpg/.jpeg path in any case. */
  function SaveFormat(mode: Mode, path: string): (f: Format)
    ensures mode == RGBA ==> f == PNG
    ensures f == JPEG <==> mode != RGBA && (EndsWith(Lower(path), ".jpg") || EndsWith(Lower(path), ".jpeg"))
  {
    if mode == RGBA then PNG
    else if EndsWith(Lower(path), ".jpg") || EndsWith(Lower(path), ".jpeg") then JPEG
    else PNG
  }

  /** Only the lower-cased path matters. */
  lemma SaveFormatIgnoresCase(mode: Mode, path: string)
    ensures SaveFormat(mode, path) == SaveFormat(mode, Lower(path))
  {
    LowerIdempotent(path);
  }

  /**
   * A path ends with a dotted suffix exactly when its final extension equals
   * that suffix, the extension holding no dot after its first character.
   */
  lemma EndsWithExtension(path: string, ext: string, suffix: string)
    requires EndsWith(path, ext)
    requires |ext| > 0 && ext[0] == '.' && forall j :: 1 <= j < |ext| ==> ext[j] != '.'
    requires |suffix| > 0 && suffix[0] == '.' && forall j :: 1 <= j < |suffix| ==> suffix[j] != '.'
    ensures EndsWith(path, suffix) <==> ext == suffix
  {
    assert path[|path| - |ext|..] == ext;
    if |ext| < |suffix| {
      assert path[|path| - |ext|] == '.' != suffix[|suffix| - |ext|];
    } else if |ext| > |suffix| {
      assert path[|path| - |suffix|] == ext[|ext| - |suffix|] != '.';
    }
  }

  /** For an image without alpha the format follows the lower-cased final extension alone. */
  lemma SaveFormatOfExtension(mode: Mode, prefix: string, ext: string)
    requires mode != RGBA
    requires ext != [] && IsExtension(ext)
    ensures SaveFormat(mode, prefix + ext) == JPEG <==> Lower(ext) == ".jpg" || Lower(ext) == ".jpeg"
  {
    LowerAppend(prefix, ext);
    var le := Lower(ext);
    assert EndsWith(Lower(prefix + ext), le) by {
      assert Lower(prefix + ext) == Lower(prefix) + le;
    }
    EndsWithExtension(Lower(prefix + ext), le, ".jpg");
    EndsWithExtension(Lower(prefix + ext), le, ".jpeg");
  }

  /**
   * The augmented copy of a plain file name "stem.ext" is saved as JPEG, when
   * it has no alpha, exactly when ext is ".jpg" or ".jpeg" in any case.
   */
  lemma AugmentedSaveFormat(mode: Mode, folder: string, stem: string, ext: string)
    requires mode != RGBA
    requires forall j :: 0 <= j < |stem| ==> stem[j] != '/'
    requires !AllDots(stem)
    requires ext != [] && IsExtension(ext)
    ensures SaveFormat(mode, Join(folder, AugmentedName(stem + ext))) == JPEG <==> Lower(ext) == ".jpg" || Lower(ext) == ".jpeg"
  {
    AugmentedNameOf(stem, ext);
    var name := stem + "_augmented" + ext;
    assert name[0] == stem[0] != '/';
    var prefix := if folder == [] || folder[|folder| - 1] == '/' then folder + stem + "_augmented" else folder + "/" + stem + "_augmented";
    assert Join(folder, name) == prefix + ext;
    SaveFormatOfExtension(mode, prefix, ext);
  }
}
