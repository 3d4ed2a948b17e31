/** File URLs as the app uses them: a directory and a last path component. */
module Paths {
  import opened Wrappers

  /** A file URL: the path components of its directory and its last path component. */
  datatype Url = Url(dir: seq<string>, name: string)

  /** The app's documents directory, `FileManager.default.urls(for: .documentDirectory, ...)[0]`;
      its real location is chosen by the operating system and stands here as a fixed path. */
  const Documents: seq<string> := ["Documents"]

  /** `u.deletingLastPathComponent().appendingPathComponent(component)`: the same directory,
      with `component` as the last path component. */
  function Sibling(u: Url, component: string): (r: Url)
    ensures r.dir == u.dir && r.name == component
  {
    Url(u.dir, component)
  }

  /** The text after the last '.' of `name`, or None when `name` has no '.'. */
  function DotSuffix(name: string): (r: Option<string>)
    ensures r.Some? <==> '.' in name
    ensures r.Some? ==> '.' !in r.value && |r.value| < |name|
    ensures r.Some? ==> name[|name| - |r.value| - 1] == '.' && name[|name| - |r.value|..] == r.value
    decreases |name|
  {
    if name == [] then None
    else
      var init, last := name[..|name| - 1], name[|name| - 1];
      assert name == init + [last];
      if last == '.' then Some("")
      else match DotSuffix(init)
        case None => None
        case Some(e) => Some(e + [last])
  }

  /** Foundation's `pathExtension` of a last path component: what follows its last '.', or ""
      when it has none. A '.' that starts the name marks a hidden file, not an extension. */
  function PathExtension(name: string): (ext: string)
    ensures '.' !in ext
    ensures |name| <= 1 || '.' !in name[1..] ==> ext == ""
    ensures ext == "" && |name| > 1 && '.' in name[1..] ==> name[|name| - 1] == '.'
    ensures ext != "" ==> |ext| < |name| - 1 && name[|name| - |ext| - 1] == '.' && name[|name| - |ext|..] == ext
  {
    match DotSuffix(name)
    case None => ""
    case Some(e) =>
      if |e| == |name| - 1 then ""
      else
        assert name[1..][|name| - |e| - 2] == '.';
        e
  }

  /** What follows the last '.' is the extension's text, whatever precedes that '.'. */
  lemma {:induction false} DotSuffixAfterDot(a: string, b: string)
    requires '.' !in b
    ensures DotSuffix(a + "." + b) == Some(b)
    decreases |b|
  {
    var n := a + "." + b;
    if b == [] {
      assert n[..|n| - 1] == a && n[|n| - 1] == '.';
    } else {
      var init := b[..|b| - 1];
      DotSuffixAfterDot(a, init);
      assert n[..|n| - 1] == a + "." + init && n[|n| - 1] == b[|b| - 1];
      assert init + [b[|b| - 1]] == b;
    }
  }

  /** A name that is not only its last '.' and what follows has as extension exactly the text
      after that '.'. */
  lemma PathExtensionAfterDot(a: string, b: string)
    requires a != "" && '.' !in b
    ensures PathExtension(a + "." + b) == b
  {
    DotSuffixAfterDot(a, b);
  }

  /** A name built as `base + ".m4a"` has the extension "m4a" exactly when `base` is not
      empty; ".m4a" on its own is a hidden file without an extension. */
  lemma AudioExtension(base: string)
    ensures PathExtension(base + ".m4a") == "m4a" <==> base != ""
  {
    assert base + ".m4a" == base + "." + "m4a";
    if base != "" {
      PathExtensionAfterDot(base, "m4a");
    } else {
      DotSuffixAfterDot(base, "m4a");
    }
  }
}
