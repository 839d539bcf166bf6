// The file-name logic of SerializeUtility: where a saved house lives
// (GetPath, built with CombinePaths), and how the names of saved houses
// are listed (the stripping step of GetFiles).
//
// Path.Combine is modelled as the .NET runtime behaves on a platform whose
// directory separator is '/': an empty side yields the other side, a
// rooted second path replaces the first, and a separator is inserted unless
// the first path already ends with one. Reading, writing and listing files
// are I/O and are left to the caller.

module SerializeUtility {

  const Extension: string := ".zlb"
  const Sep: char := '/'

  predicate EndsWith(s: string, suffix: string)
  {
    |suffix| <= |s| && s[|s| - |suffix|..] == suffix
  }

  predicate IsRooted(p: string)
  {
    |p| > 0 && p[0] == Sep
  }

  /// Path.Combine of two paths.
  function Combine(a: string, b: string): string
  {
    if b == "" then a
    else if a == "" then b
    else if IsRooted(b) then b
    else if a[|a| - 1] == Sep then a + b
    else a + [Sep] + b
  }

  /// A non-empty second path always ends the combination; an empty one
  /// leaves the first unchanged.
  lemma CombineEndsWith(a: string, b: string)
    ensures b != "" ==> EndsWith(Combine(a, b), b)
    ensures b == "" ==> Combine(a, b) == a
  {
    if b != "" && a != "" && !IsRooted(b) {
      if a[|a| - 1] == Sep {
        assert (a + b)[|a + b| - |b|..] == b;
      } else {
        assert (a + [Sep] + b)[|a + [Sep] + b| - |b|..] == b;
      }
    }
  }

  lemma EndsWithTrans(x: string, y: string, z: string)
    requires EndsWith(x, y) && EndsWith(y, z)
    ensures EndsWith(x, z)
  {
    assert x[|x| - |z|..] == x[|x| - |y|..][|y| - |z|..];
  }

  /// The fold CombinePaths computes: Path.Combine from the left, starting from "".
  function CombineAll(strings: seq<string>): string
  {
    if |strings| == 0 then "" else Combine(CombineAll(strings[..|strings| - 1]), strings[|strings| - 1])
  }

  /// CombinePaths: the loop over the components.
  method CombinePaths(strings: seq<string>) returns (path: string)
    ensures path == CombineAll(strings)
  {
    path := "";
    var i := 0;
    while i < |strings|
      invariant 0 <= i <= |strings|
      invariant path == CombineAll(strings[..i])
    {
      assert strings[..i + 1][..i] == strings[..i];
      path := Combine(path, strings[i]);
      i := i + 1;
    }
    assert strings[..i] == strings;
  }

  /// A path component with no separator at either end.
  predicate Plain(p: string)
  {
    |p| > 0 && p[0] != Sep && p[|p| - 1] != Sep
  }

  /// The components joined by single separators.
  function Joined(strings: seq<string>): string
  {
    if |strings| == 0 then ""
    else if |strings| == 1 then strings[0]
    else Joined(strings[..|strings| - 1]) + [Sep] + strings[|strings| - 1]
  }

  /// Plain components are joined by exactly one separator each.
  lemma {:induction false} CombineAllJoins(strings: seq<string>)
    requires forall i :: 0 <= i < |strings| ==> Plain(strings[i])
    ensures CombineAll(strings) == Joined(strings)
    ensures |strings| > 0 ==> Plain(CombineAll(strings))
  {
    if |strings| > 0 {
      var init := strings[..|strings| - 1];
      CombineAllJoins(init);
      if |init| == 0 {
        assert CombineAll(init) == "";
      }
    }
  }

  /// The last non-empty component ends the combined path.
  lemma CombineAllEndsWith(strings: seq<string>)
    requires |strings| > 0 && strings[|strings| - 1] != ""
    ensures EndsWith(CombineAll(strings), strings[|strings| - 1])
  {
    CombineEndsWith(CombineAll(strings[..|strings| - 1]), strings[|strings| - 1]);
  }

  // ------------------------------------------------------------- GetPath

  /// The file name as saved: the extension is added unless already there.
  function WithExtension(filename: string): string
  {
    if EndsWith(filename, Extension) then filename else filename + Extension
  }

  /// The saved name always carries the extension, and adding it again
  /// changes nothing: it is never doubled.
  lemma WithExtensionMeaning(filename: string)
    ensures EndsWith(WithExtension(filename), Extension)
    ensures WithExtension(WithExtension(filename)) == WithExtension(filename)
    ensures EndsWith(filename, Extension) <==> WithExtension(filename) == filename
  {
    var f := filename + Extension;
    assert f[|f| - |Extension|..] == Extension;
  }

  /// The fixed directories every save lives under.
  const SaveRoot: seq<string> := ["Assets", "Standard Assets", "Resources"]

  /// The components of a save path.
  function SaveComponents(directory: string, filename: string): seq<string>
  {
    SaveRoot + [directory, filename]
  }

  /// The path GetPath returns.
  function SavePath(directory: string, filename: string): string
  {
    var path := CombineAll(SaveComponents(directory, filename));
    if EndsWith(filename, Extension) then path else path + Extension
  }

  /// GetPath.
  method GetPath(directory: string, filename: string) returns (path: string)
    ensures path == SavePath(directory, filename)
  {
    path := CombinePaths(SaveComponents(directory, filename));
    if !EndsWith(filename, Extension) {
      path := path + Extension;
    }
  }

  /// Every save path has the extension, and a non-empty file name,
  /// extension added when missing, ends it.
  lemma {:induction false} SavePathEnds(directory: string, filename: string)
    ensures EndsWith(SavePath(directory, filename), Extension)
    ensures filename != "" ==> EndsWith(SavePath(directory, filename), WithExtension(filename))
  {
    var cs := SaveComponents(directory, filename);
    var path := CombineAll(cs);
    if EndsWith(filename, Extension) {
      CombineAllEndsWith(cs);
      EndsWithTrans(path, filename, Extension);
    } else {
      var p := path + Extension;
      assert p[|p| - |Extension|..] == Extension;
      if filename != "" {
        CombineAllEndsWith(cs);
        assert p[|p| - |filename + Extension|..] == path[|path| - |filename|..] + Extension;
      }
    }
  }

  /// The save root as a path.
  lemma SaveRootPath()
    ensures Joined(SaveRoot) == "Assets/Standard Assets/Resources"
  {
    assert SaveRoot[..2][..1] == ["Assets"];
    assert SaveRoot[..2] == ["Assets", "Standard Assets"];
    assert Joined(SaveRoot[..2]) == "Assets/Standard Assets";
  }

  /// With plain names the save path is the usual
  /// "Assets/Standard Assets/Resources/<directory>/<filename>.zlb".
  lemma PlainSavePath(directory: string, filename: string)
    requires Plain(directory) && Plain(filename)
    ensures SavePath(directory, filename) == Joined(SaveRoot) + [Sep] + directory + [Sep] + WithExtension(filename)
  {
    var cs := SaveComponents(directory, filename);
    CombineAllJoins(cs);
    assert cs[..4] == SaveRoot + [directory] && cs[..4][..3] == SaveRoot;
    var front := Joined(SaveRoot) + [Sep] + directory + [Sep];
    assert Joined(cs) == front + filename;
    if !EndsWith(filename, Extension) {
      assert front + filename + Extension == front + (filename + Extension);
    }
  }

  // ------------------------------------------------------------- GetFiles

  /// A listed file's name without the extension's length of characters.
  function Stripped(name: string): string
    requires |name| >= |Extension|
  {
    name[..|name| - |Extension|]
  }

  /// Stripping undoes adding the extension.
  lemma StripRoundTrip(filename: string)
    ensures !EndsWith(filename, Extension) ==> Stripped(WithExtension(filename)) == filename
  {
  }

  /// Adding the extension back to a stripped listed name restores it.
  lemma StripRestoresName(name: string)
    requires |name| >= |Extension|
    ensures EndsWith(name, Extension) ==> Stripped(name) + Extension == name
  {
    if EndsWith(name, Extension) {
      assert name == name[..|name| - |Extension|] + name[|name| - |Extension|..];
    }
  }

  /// The name-stripping loop of GetFiles over the names of the listed files
  /// (the listing asks for names matching "*.zlb").
  method StripNames(names: seq<string>) returns (fileNames: array<string>)
    requires forall i :: 0 <= i < |names| ==> |names[i]| >= |Extension|
    ensures fresh(fileNames)
    ensures fileNames.Length == |names|
    ensures forall i :: 0 <= i < |names| ==> fileNames[i] == Stripped(names[i])
  {
    fileNames := new string[|names|];
    var i := 0;
    while i < |names|
      invariant 0 <= i <= |names|
      invariant forall j :: 0 <= j < i ==> fileNames[j] == Stripped(names[j])
    {
      fileNames[i] := Stripped(names[i]);
      i := i + 1;
    }
  }
}
