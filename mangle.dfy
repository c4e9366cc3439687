/**
 * The deterministic name mangler: `id_str(use, name) = use + "_" + sha1(name).hexdigest()`
 * and its three contexts `Directory`, `Component` and `File`. SHA-1 itself is not
 * modelled: a `Hasher` is any function that yields 40 lowercase hexadecimal digits.
 */
module Mangle {

  predicate IsHexDigit(c: char) {
    '0' <= c <= '9' || 'a' <= c <= 'f'
  }

  /** The shape of `hashlib.sha1(...).hexdigest()`: 40 lowercase hex digits. */
  predicate IsHexDigest(d: string) {
    |d| == 40 && forall i :: 0 <= i < |d| ==> IsHexDigit(d[i])
  }

  function ZeroDigest(s: string): string {
    seq(40, _ => '0')
  }

  /** A stand-in for SHA-1: every input is mapped to some 40-digit hex digest. */
  type Hasher = h: string -> string | forall s :: IsHexDigest(h(s)) witness ZeroDigest

  /** Identifier grammar of the installer format: a letter or `_`, then letters, digits, `_` or `.`. */
  predicate IsIdStart(c: char) {
    'A' <= c <= 'Z' || 'a' <= c <= 'z' || c == '_'
  }

  predicate IsIdChar(c: char) {
    IsIdStart(c) || '0' <= c <= '9' || c == '.'
  }

  const MaxIdLength: nat := 72

  predicate IsLegalId(s: string) {
    0 < |s| <= MaxIdLength && IsIdStart(s[0]) && forall i :: 0 <= i < |s| ==> IsIdChar(s[i])
  }

  /**
   * `id_str`: the context, an underscore, then the digest of the name. The result
   * is a legal identifier whenever the context is a legal identifier of at most
   * 31 characters.
   */
  function IdStr(sha1: Hasher, use: string, name: string): (r: string)
    ensures |r| == |use| + 41
    ensures r[..|use|] == use && r[|use|] == '_' && r[|use| + 1..] == sha1(name)
    ensures IsLegalId(use) && |use| <= MaxIdLength - 41 ==> IsLegalId(r)
  {
    var d := sha1(name);
    assert IsHexDigest(d);
    var r := use + "_" + d;
    assert r[|use| + 1..] == d;
    r
  }

  /** `directory_id`: a legal 50-character identifier beginning with `Directory_`. */
  function DirectoryId(sha1: Hasher, path: string): (r: string)
    ensures IsLegalId(r) && |r| == 50
    ensures r[..10] == "Directory_" && r[10..] == sha1(path)
  {
    IdStr(sha1, "Directory", path)
  }

  /** `component_id`: a legal 50-character identifier beginning with `Component_`. */
  function ComponentId(sha1: Hasher, name: string): (r: string)
    ensures IsLegalId(r) && |r| == 50
    ensures r[..10] == "Component_" && r[10..] == sha1(name)
  {
    IdStr(sha1, "Component", name)
  }

  /** `file_id`: a legal 45-character identifier beginning with `File_`. */
  function FileId(sha1: Hasher, name: string): (r: string)
    ensures IsLegalId(r) && |r| == 45
    ensures r[..5] == "File_" && r[5..] == sha1(name)
  {
    IdStr(sha1, "File", name)
  }

  /** Tokens of different contexts never coincide, whatever the names and the digests. */
  lemma ContextsDisjoint(sha1: Hasher, a: string, b: string)
    ensures DirectoryId(sha1, a) != ComponentId(sha1, b)
    ensures DirectoryId(sha1, a) != FileId(sha1, b)
    ensures ComponentId(sha1, a) != FileId(sha1, b)
  {
    var d, c, f := DirectoryId(sha1, a), ComponentId(sha1, b), FileId(sha1, b);
    assert d[0] == d[..10][0] == 'D';
    assert c[0] == c[..10][0] == 'C';
    assert f[0] == f[..5][0] == 'F';
  }

  /**
   * Within one context two names get the same token exactly when their digests
   * coincide: the mangler adds no collisions of its own beyond SHA-1's.
   */
  lemma {:induction false} SameTokenIffSameDigest(sha1: Hasher, use: string, a: string, b: string)
    ensures IdStr(sha1, use, a) == IdStr(sha1, use, b) <==> sha1(a) == sha1(b)
  {
    var ra, rb := IdStr(sha1, use, a), IdStr(sha1, use, b);
    if sha1(a) == sha1(b) {
      assert ra == ra[..|use|] + [ra[|use|]] + ra[|use| + 1..];
      assert rb == rb[..|use|] + [rb[|use|]] + rb[|use| + 1..];
    }
  }

  /** The three identifier contexts the builder uses, as functions of the name. */
  datatype Naming = Naming(dir: string -> string, component: string -> string, file: string -> string)

  /** The builder's naming: `directory_id`, `component_id` and `file_id` under digest function `sha1`. */
  function Mangled(sha1: Hasher): Naming {
    Naming(p => DirectoryId(sha1, p), p => ComponentId(sha1, p), p => FileId(sha1, p))
  }

  /** Every identifier of the builder's naming is legal, and the three contexts never share an identifier. */
  lemma MangledLegal(sha1: Hasher, a: string, b: string)
    ensures var n := Mangled(sha1);
      && IsLegalId(n.dir(a)) && IsLegalId(n.component(a)) && IsLegalId(n.file(a))
      && n.dir(a) != n.component(b) && n.dir(a) != n.file(b) && n.component(a) != n.file(b)
  {
    ContextsDisjoint(sha1, a, b);
  }
}
