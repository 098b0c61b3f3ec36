/** The one piece of `createShaderProgram` that is not I/O or a GL call:
    with double precision requested, the line `#define
    USE_DOUBLE_PRECISION` is inserted into the fragment shader's source
    right after its first line (the `#version` directive). */
module ShaderSource {

  const PrecisionDefine: string := "#define USE_DOUBLE_PRECISION\n"

  /** The result of `std::string::find`: an index or `npos`. */
  datatype Position = NotFound | At(index: nat)

  /** No character of `s` before index `i` is a newline. */
  ghost predicate NoNewlineBefore(s: string, i: nat)
    requires i <= |s|
  {
    forall k :: 0 <= k < i ==> s[k] != '\n'
  }

  /** The index of the first newline of `s`, if any. */
  function FirstNewline(s: string): (r: Position)
    ensures r.At? ==> r.index < |s| && s[r.index] == '\n' && NoNewlineBefore(s, r.index)
    ensures r.NotFound? <==> NoNewlineBefore(s, |s|)
  {
    if s == [] then NotFound
    else if s[0] == '\n' then At(0)
    else
      match FirstNewline(s[1..])
      case NotFound => NotFound
      case At(i) => At(i + 1)
  }

  /** The fragment source as it goes to the compiler. */
  function WithPrecisionDefine(source: string, useDouble: bool): (r: string)
    ensures !useDouble || '\n' !in source ==> r == source
    ensures useDouble && '\n' in source ==>
      exists i :: 0 <= i < |source| && source[i] == '\n' && NoNewlineBefore(source, i)
        && r == source[..i + 1] + PrecisionDefine + source[i + 1..]
    ensures |r| == |source| + |PrecisionDefine| <==> useDouble && '\n' in source
  {
    if !useDouble then source
    else
      match FirstNewline(source)
      case NotFound => source
      case At(i) => source[..i + 1] + PrecisionDefine + source[i + 1..]
  }

  /** `fragmentSource.find('\n')`: a scan for the first newline. */
  method FindNewline(s: string) returns (r: Position)
    ensures r == FirstNewline(s)
  {
    var i := 0;
    while i < |s|
      invariant 0 <= i <= |s|
      invariant NoNewlineBefore(s, i)
    {
      if s[i] == '\n' {
        FirstNewlineUnique(s, i);
        return At(i);
      }
      i := i + 1;
    }
    return NotFound;
  }

  /** A newline with none before it is THE first newline. */
  lemma FirstNewlineUnique(s: string, i: nat)
    requires i < |s| && s[i] == '\n' && NoNewlineBefore(s, i)
    ensures FirstNewline(s) == At(i)
  {
  }

  /** The define insertion as the program does it, by `insert` into the
      source text. */
  method PrepareFragmentSource(source: string, useDouble: bool) returns (fragmentSource: string)
    ensures fragmentSource == WithPrecisionDefine(source, useDouble)
  {
    fragmentSource := source;
    if useDouble {
      var versionEnd := FindNewline(fragmentSource);
      if versionEnd.At? {
        var at := versionEnd.index + 1;
        fragmentSource := fragmentSource[..at] + PrecisionDefine + fragmentSource[at..];
      }
    }
  }

  /** The first line is kept, the define follows it as a line of its own,
      and cutting the define out again gives back the original source. */
  lemma DefineRoundTrip(source: string, i: nat)
    requires i < |source| && source[i] == '\n' && NoNewlineBefore(source, i)
    ensures var r := WithPrecisionDefine(source, true);
      r[..i + 1] == source[..i + 1]
      && r[i + 1..i + 1 + |PrecisionDefine|] == PrecisionDefine
      && r[..i + 1] + r[i + 1 + |PrecisionDefine|..] == source
  {
    FirstNewlineUnique(source, i);
    var r := WithPrecisionDefine(source, true);
    assert r == source[..i + 1] + PrecisionDefine + source[i + 1..];
    assert r[..i + 1] == source[..i + 1];
    assert r[i + 1..i + 1 + |PrecisionDefine|] == PrecisionDefine;
    assert r[i + 1 + |PrecisionDefine|..] == source[i + 1..];
    assert source[..i + 1] + source[i + 1..] == source;
  }
}
