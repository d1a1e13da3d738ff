/** The local file names `_queue_downloads` gives to deferred media. */
module Naming {
  import opened Messages

  /** The download directory, as `str(Path('./downloads') / name)` prints it. */
  const DownloadDir: string := "downloads/"

  predicate IsDigit(c: char) {
    '0' <= c <= '9'
  }

  function DigitChar(d: nat): (c: char)
    requires d < 10
    ensures IsDigit(c)
  {
    (d + '0' as int) as char
  }

  /** The decimal numeral of a natural number, most significant digit first. */
  function NatDecimal(n: nat): (s: string)
    ensures |s| >= 1
    ensures n >= 10 ==> |s| >= 2
    ensures forall i :: 0 <= i < |s| ==> IsDigit(s[i])
    decreases n
  {
    if n < 10 then [DigitChar(n)] else NatDecimal(n / 10) + [DigitChar(n % 10)]
  }

  /** Python's `f"{n}"` for an integer: a minus sign for a negative number,
      then the digits. It never contains the separator '_'. */
  function Decimal(n: int): (s: string)
    ensures |s| >= 1
    ensures s[0] == '-' <==> n < 0
    ensures s[0] == '-' || IsDigit(s[0])
    ensures forall i :: 0 <= i < |s| ==> s[i] == '-' || IsDigit(s[i])
    ensures forall i :: 0 <= i < |s| ==> s[i] != '_'
  {
    if n < 0 then "-" + NatDecimal(-n) else NatDecimal(n)
  }

  lemma {:induction false} NatDecimalInjective(a: nat, b: nat)
    requires NatDecimal(a) == NatDecimal(b)
    ensures a == b
    decreases a
  {
    var s := NatDecimal(a);
    if a < 10 && b < 10 {
      assert s[0] == DigitChar(a) && s[0] == DigitChar(b);
    } else if a >= 10 && b >= 10 {
      assert s[|s| - 1] == DigitChar(a % 10) == DigitChar(b % 10);
      assert NatDecimal(a / 10) == s[..|s| - 1] == NatDecimal(b / 10);
      NatDecimalInjective(a / 10, b / 10);
    }
  }

  /** Different integers print differently. */
  lemma {:induction false} DecimalInjective(a: int, b: int)
    requires Decimal(a) == Decimal(b)
    ensures a == b
  {
    if a < 0 && b < 0 {
      assert NatDecimal(-a) == Decimal(a)[1..] == NatDecimal(-b);
      NatDecimalInjective(-a, -b);
    } else if a >= 0 && b >= 0 {
      NatDecimalInjective(a, b);
    }
  }

  /** A numeral followed by a text that starts with '_' determines the number:
      the first '_' ends the numeral. */
  lemma SeparatedDecimalInjective(a: int, s: string, b: int, t: string)
    requires |s| > 0 && s[0] == '_' && |t| > 0 && t[0] == '_'
    requires Decimal(a) + s == Decimal(b) + t
    ensures a == b
  {
    var da, db := Decimal(a), Decimal(b);
    assert (da + s)[|da|] == '_' && (db + t)[|db|] == '_';
    if |da| == |db| {
      assert da == (da + s)[..|da|] == (db + t)[..|db|] == db;
      DecimalInjective(a, b);
    }
  }

  /** Python truthiness of the answer of `get_file_name`: None and the empty
      name both count as "no file name". */
  predicate HasFileName(fileName: Option<string>) {
    fileName.Some? && fileName.value != ""
  }

  /** The path a message's media is downloaded to before the extension is
      known: `message_{id}_{filename}` when there is a file name, else
      `{id}_temp`. */
  function DownloadTarget(id: int, fileName: Option<string>): (p: string)
    ensures DownloadDir <= p && |p| > |DownloadDir|
    ensures HasFileName(fileName) ==> |fileName.value| < |p| && p[|p| - |fileName.value|..] == fileName.value
    ensures !HasFileName(fileName) ==> forall i :: |DownloadDir| <= i < |p| ==> p[i] != '.' && p[i] != '/'
  {
    if HasFileName(fileName) then DownloadDir + "message_" + Decimal(id) + "_" + fileName.value
    else DownloadDir + Decimal(id) + "_temp"
  }

  /** Python's `s.rfind(c)`: the last position of `c` in `s`, -1 if none. */
  function LastIndex(s: string, c: char): (i: int)
    ensures -1 <= i < |s|
    ensures i >= 0 ==> s[i] == c
    ensures forall j :: i < j < |s| ==> s[j] != c
  {
    if s == [] then -1
    else if s[|s| - 1] == c then |s| - 1
    else LastIndex(s[..|s| - 1], c)
  }

  /** The final component of a path, `PurePath.name`: what follows the last
      '/'. */
  function Name(path: string): (n: string)
    ensures |n| <= |path| && path[|path| - |n|..] == n
    ensures forall j :: 0 <= j < |n| ==> n[j] != '/'
    ensures |n| < |path| ==> path[|path| - |n| - 1] == '/'
  {
    path[LastIndex(path, '/') + 1..]
  }

  /** A name without its suffix. As `PurePath.suffix` has it, the suffix
      starts at the last '.', provided that dot is neither the first nor
      the last character of the name; otherwise there is no suffix. */
  function Stem(name: string): (r: string)
    ensures r <= name
    ensures r != name <==> 0 < LastIndex(name, '.') < |name| - 1
    ensures r != name ==> |r| == LastIndex(name, '.')
    ensures r != name ==> 0 < |r| < |name| - 1 && name[|r|] == '.'
    ensures r != name ==> forall j :: |r| < j < |name| ==> name[j] != '.'
    ensures (forall j :: 0 <= j < |name| ==> name[j] != '.') ==> r == name
  {
    var i := LastIndex(name, '.');
    if 0 < i < |name| - 1 then name[..i] else name
  }

  /** Cutting a path at the end of the stem of its final component drops
      nothing, or a part that starts with '.' and holds no '/'. */
  lemma DroppedSuffix(path: string, name: string, stem: string)
    requires |name| <= |path| && path[|path| - |name|..] == name
    requires stem <= name && (stem != name ==> name[|stem|] == '.')
    requires forall j :: 0 <= j < |name| ==> name[j] != '/'
    ensures var kept := |path| - |name| + |stem|;
      kept == |path| || (path[kept] == '.' && forall j :: kept <= j < |path| ==> path[j] != '/')
  {
    var d := |path| - |name|;
    assert forall j :: d <= j < |path| ==> path[j] == name[j - d];
  }

  /** Where `with_suffix` cuts a path: at the end of the stem of its final
      component, which is the last '.' of that component when it has a
      suffix and the end of the path otherwise. */
  lemma StemCut(path: string, kept: int)
    requires kept == |path| - |Name(path)| + |Stem(Name(path))|
    ensures 0 <= kept <= |path|
    ensures var n := Name(path); var i := LastIndex(n, '.');
      kept == if 0 < i < |n| - 1 then |path| - |n| + i else |path|
    ensures kept == |path| || (path[kept] == '.' && forall j :: kept <= j < |path| ==> path[j] != '/')
  {
    DroppedSuffix(path, Name(path), Stem(Name(path)));
  }

  /** A path cut at `kept` and extended keeps its first `kept` characters
      and ends with '.' and the extension. */
  lemma CutAndExtend(path: string, kept: nat, extension: string)
    requires kept <= |path|
    ensures var p := path[..kept] + "." + extension;
      |p| - |extension| - 1 == kept &&
      p[|p| - |extension| - 1..] == "." + extension &&
      p[..|p| - |extension| - 1] <= path
  {
    var p := path[..kept] + "." + extension;
    assert p[..kept] == path[..kept];
    assert p[kept..] == "." + extension;
  }

  /** `PurePath.with_suffix("." + extension)`: the suffix of the final
      component, if it has one, is replaced by '.' and the extension. */
  function WithSuffix(path: string, extension: string): (p: string)
    ensures |p| >= |extension| + 1
    ensures p[|p| - |extension| - 1..] == "." + extension
    ensures p[..|p| - |extension| - 1] <= path
  {
    var kept := |path| - |Name(path)| + |Stem(Name(path))|;
    CutAndExtend(path, kept, extension);
    path[..kept] + "." + extension
  }

  /** Where `with_suffix` cuts: at the last '.' of the final component when
      that '.' is neither its first nor its last character, else at the end
      of the path; so what it drops is nothing, or a part of the final
      component that starts with '.'. */
  lemma WithSuffixCut(path: string, extension: string)
    ensures var kept := |WithSuffix(path, extension)| - |extension| - 1;
      var n := Name(path); var i := LastIndex(n, '.');
      kept == (if 0 < i < |n| - 1 then |path| - |n| + i else |path|) &&
      (kept == |path| || (path[kept] == '.' && forall j :: kept <= j < |path| ==> path[j] != '/'))
  {
    var cut := |path| - |Name(path)| + |Stem(Name(path))|;
    assert WithSuffix(path, extension) == path[..cut] + "." + extension;
    StemCut(path, |WithSuffix(path, extension)| - |extension| - 1);
  }

  /** An existing suffix is replaced, not extended. */
  lemma WithSuffixReplaces()
    ensures WithSuffix("downloads/a.txt", "jpg") == "downloads/a.jpg"
  {
    var path, name := "downloads/a.txt", "a.txt";
    assert path[9] == '/' && path[10..] == name;
    assert forall j :: 9 < j < |path| ==> path[j] != '/';
    assert LastIndex(path, '/') == 9;
    assert name[1] == '.' && forall j :: 1 < j < |name| ==> name[j] != '.';
    assert LastIndex(name, '.') == 1;
  }

  /** On a path whose final component has no '.', `with_suffix` appends. */
  lemma WithSuffixAppends(path: string, extension: string)
    requires forall j :: 0 <= j < |Name(path)| ==> Name(path)[j] != '.'
    ensures WithSuffix(path, extension) == path + "." + extension
  {
    var name := Name(path);
    assert Stem(name) == name;
    assert path[..|path|] == path;
  }

  /** The temporary download target has no suffix, so renaming it with the
      sniffed extension appends the extension. */
  lemma TempTargetAppends(id: int, fileName: Option<string>, extension: string)
    requires !HasFileName(fileName)
    ensures WithSuffix(DownloadTarget(id, fileName), extension) == DownloadTarget(id, fileName) + "." + extension
  {
    var t := DownloadTarget(id, fileName);
    var name := Name(t);
    var start := |t| - |name|;
    assert start >= |DownloadDir| by {
      assert t[|DownloadDir| - 1] == '/';
      if start < |DownloadDir| {
        assert name[|DownloadDir| - 1 - start] == t[|DownloadDir| - 1];
      }
    }
    forall j | 0 <= j < |name|
      ensures name[j] != '.'
    {
      assert name[j] == t[start + j];
    }
    WithSuffixAppends(t, extension);
  }

  lemma TempNameShape(dir: string, d: string, extension: string)
    ensures dir + d + "_temp" + "." + extension == dir + (d + "_temp." + extension)
  {
    assert "_temp" + "." == "_temp.";
  }

  /** The path the download queue finally holds for a message: the file-name
      path as is, or the temporary path renamed with the extension sniffed
      from the downloaded content; `DownloadPathRenames` shows the renaming
      is `with_suffix`. */
  function DownloadPath(id: int, fileName: Option<string>, extension: string): (p: string)
    ensures DownloadDir <= p
    ensures HasFileName(fileName) ==> p[|DownloadDir|..] == "message_" + Decimal(id) + "_" + fileName.value
    ensures !HasFileName(fileName) ==> p[|DownloadDir|..] == Decimal(id) + "_temp." + extension
  {
    var target := DownloadTarget(id, fileName);
    if HasFileName(fileName) then
      assert target == DownloadDir + ("message_" + Decimal(id) + "_" + fileName.value);
      target
    else
      TempNameShape(DownloadDir, Decimal(id), extension);
      target + "." + extension
  }

  /** The queued path is the download target, renamed by
      `with_suffix(f".{extension}")` when the message has no file name. */
  lemma DownloadPathRenames(id: int, fileName: Option<string>, extension: string)
    ensures DownloadPath(id, fileName, extension) ==
      if HasFileName(fileName) then DownloadTarget(id, fileName)
      else WithSuffix(DownloadTarget(id, fileName), extension)
  {
    if !HasFileName(fileName) {
      TempTargetAppends(id, fileName, extension);
    }
  }

  /** Equal strings with the same prefix agree after it. */
  lemma SamePrefix(prefix: string, x: string, y: string)
    requires prefix + x == prefix + y
    ensures x == y
  {
    assert x == (prefix + x)[|prefix|..];
    assert y == (prefix + y)[|prefix|..];
  }

  /** Concatenation regrouped to the right. */
  lemma Regroup(x: string, y: string, z: string)
    ensures x + y + z == x + (y + z)
  {
  }

  /** A name that starts with "message_" followed by a numeral and '_'
      determines the numeral. */
  lemma NamedPathInjective(a: int, fa: string, b: int, fb: string)
    requires "message_" + Decimal(a) + "_" + fa == "message_" + Decimal(b) + "_" + fb
    ensures a == b
  {
    var da, db := Decimal(a), Decimal(b);
    Regroup("message_" + da, "_", fa);
    Regroup("message_", da, "_" + fa);
    Regroup("message_" + db, "_", fb);
    Regroup("message_", db, "_" + fb);
    SamePrefix("message_", da + ("_" + fa), db + ("_" + fb));
    SeparatedDecimalInjective(a, "_" + fa, b, "_" + fb);
  }

  /** A temporary name determines its numeral. */
  lemma TempPathInjective(a: int, ea: string, b: int, eb: string)
    requires Decimal(a) + "_temp." + ea == Decimal(b) + "_temp." + eb
    ensures a == b
  {
    Regroup(Decimal(a), "_temp.", ea);
    Regroup(Decimal(b), "_temp.", eb);
    SeparatedDecimalInjective(a, "_temp." + ea, b, "_temp." + eb);
  }

  /** A file-name path never equals a temporary one: the first starts with
      'm', the second with a digit or '-'. */
  lemma NamedIsNotTemp(a: int, f: string, b: int, e: string)
    ensures "message_" + Decimal(a) + "_" + f != Decimal(b) + "_temp." + e
  {
    assert ("message_" + Decimal(a) + "_" + f)[0] == 'm';
    assert (Decimal(b) + "_temp." + e)[0] == Decimal(b)[0];
  }

  /** Two deferred messages with different ids never share a download path,
      whatever their file names and extensions: the message id in the name
      keeps same-named files of one chat apart. */
  lemma DownloadPathInjective(a: int, fa: Option<string>, ea: string,
                              b: int, fb: Option<string>, eb: string)
    requires DownloadPath(a, fa, ea) == DownloadPath(b, fb, eb)
    ensures a == b
  {
    var n := |DownloadDir|;
    var ra, rb := DownloadPath(a, fa, ea)[n..], DownloadPath(b, fb, eb)[n..];
    assert ra == rb;
    if HasFileName(fa) && HasFileName(fb) {
      NamedPathInjective(a, fa.value, b, fb.value);
    } else if !HasFileName(fa) && !HasFileName(fb) {
      TempPathInjective(a, ea, b, eb);
    } else if HasFileName(fa) {
      NamedIsNotTemp(a, fa.value, b, eb);
    } else {
      NamedIsNotTemp(b, fb.value, a, ea);
    }
  }
}
