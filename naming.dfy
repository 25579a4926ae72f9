/**
 * The naming rules of the generator (main.go:31-32 and main.go:60): the base
 * name of a template, the name of the Go file generated from it, and the name
 * of the constant declared in that file.
 */
module Naming {
  import opened Bytes
  import opened Wrappers

  /** The extension of a Vue template file. */
  const TemplateExt: Bytes := Ascii(".vue")

  /** The extension of a generated Go source file. */
  const SourceExt: Bytes := Ascii(".go")

  /** `filebase`: the template path with one trailing ".vue" removed (main.go:31). */
  function BaseName(template: Bytes): (base: Bytes)
    ensures HasSuffix(template, TemplateExt) ==> base + TemplateExt == template
    ensures !HasSuffix(template, TemplateExt) ==> base == template
  {
    TrimSuffix(template, TemplateExt)
  }

  /** `filename`: the path of the Go file generated from `template` (main.go:32). */
  function OutputName(template: Bytes): (file: Bytes)
    ensures HasSuffix(file, SourceExt)
  {
    BaseName(template) + SourceExt
  }

  /**
   * `name`: the base name with its first byte passed through strings.ToLower and
   * the rest kept (main.go:60). Slicing an empty base name panics in Go, so
   * there is no identifier for it.
   */
  function Identifier(base: Bytes): (name: Option<Bytes>)
    ensures name.None? <==> base == []
    ensures name.Some? && IsAscii(base[0]) ==>
      |name.value| == |base| && name.value[1..] == base[1..] &&
      IsAscii(name.value[0]) && !IsUpper(name.value[0]) &&
      (IsUpper(base[0]) ==> name.value[0] as int == base[0] as int + 32) &&
      (!IsUpper(base[0]) ==> name.value[0] == base[0])
    ensures name.Some? && !IsAscii(base[0]) ==> name.value == Replacement + base[1..]
  {
    if base == [] then None else Some(ToLowerByte(base[0]) + base[1..])
  }

  /** Exactly one trailing ".vue" is removed, whatever `base` itself ends with. */
  lemma BaseNameOfTemplate(base: Bytes)
    ensures BaseName(base + TemplateExt) == base
    ensures OutputName(base + TemplateExt) == base + SourceExt
  {
  }

  /** Two templates never share a generated file name. */
  lemma OutputNameInjective(t1: Bytes, t2: Bytes)
    requires HasSuffix(t1, TemplateExt) && HasSuffix(t2, TemplateExt)
    requires OutputName(t1) == OutputName(t2)
    ensures t1 == t2
  {
  }

  /** Deriving an identifier from an identifier changes nothing, for an ASCII first byte. */
  lemma IdentifierIdempotent(base: Bytes)
    requires base != [] && IsAscii(base[0])
    ensures Identifier(Identifier(base).value) == Identifier(base)
  {
  }

  /**
   * A first byte of 0x80 or more is replaced by the three bytes of U+FFFD, so
   * the identifier is two bytes longer than the base name and deriving it again
   * changes it once more.
   */
  lemma IdentifierBeyondAscii(base: Bytes)
    requires base != [] && !IsAscii(base[0])
    ensures |Identifier(base).value| == |base| + 2
    ensures Identifier(Identifier(base).value) != Identifier(base)
  {
  }

  /** `x` and `y` are the same byte, or the same ASCII letter in two cases. */
  predicate EqualFold(x: byte, y: byte) {
    x == y ||
    (IsUpper(x) && y as int == x as int + 32) ||
    (IsUpper(y) && x as int == y as int + 32)
  }

  /**
   * Two base names starting with ASCII bytes get the same identifier exactly
   * when they differ at most in the case of their first letter.
   */
  lemma IdentifierCollision(b1: Bytes, b2: Bytes)
    requires b1 != [] && b2 != [] && IsAscii(b1[0]) && IsAscii(b2[0])
    ensures Identifier(b1) == Identifier(b2) <==> b1[1..] == b2[1..] && EqualFold(b1[0], b2[0])
  {
  }

  /**
   * Two non-empty base names get the same identifier exactly when their tails
   * are equal and their first bytes are equal up to ASCII letter case or are
   * both beyond ASCII (each of these becomes U+FFFD).
   */
  lemma IdentifierCollisionAll(b1: Bytes, b2: Bytes)
    requires b1 != [] && b2 != []
    ensures Identifier(b1) == Identifier(b2) <==>
      b1[1..] == b2[1..] && (EqualFold(b1[0], b2[0]) || (!IsAscii(b1[0]) && !IsAscii(b2[0])))
  {
    var n1, n2 := Identifier(b1).value, Identifier(b2).value;
    if IsAscii(b1[0]) && IsAscii(b2[0]) {
      IdentifierCollision(b1, b2);
    } else if !IsAscii(b1[0]) && !IsAscii(b2[0]) {
      if n1 == n2 {
        assert b1[1..] == n1[3..] && b2[1..] == n2[3..];
      }
    } else if IsAscii(b1[0]) {
      assert n1[0] != n2[0];
    } else {
      assert n1[0] != n2[0];
    }
  }

  /** hello.vue gives hello.go and the constant `hello`. */
  lemma HelloExample()
    ensures OutputName(Ascii("hello.vue")) == Ascii("hello.go")
    ensures Identifier(BaseName(Ascii("hello.vue"))) == Some(Ascii("hello"))
  {
    BaseNameOfTemplate(Ascii("hello"));
    assert Ascii("hello") + TemplateExt == Ascii("hello.vue");
    assert Ascii("hello") + SourceExt == Ascii("hello.go");
    var base := Ascii("hello");
    assert base[0] == 'h' as byte;
    assert Identifier(base).value == [base[0]] + base[1..] == base;
  }

  /** Widget.vue gives the constant `widget`. */
  lemma WidgetExample()
    ensures Identifier(BaseName(Ascii("Widget.vue"))) == Some(Ascii("widget"))
  {
    BaseNameOfTemplate(Ascii("Widget"));
    assert Ascii("Widget") + TemplateExt == Ascii("Widget.vue");
    var base := Ascii("Widget");
    assert base[0] == 'W' as byte && IsUpper(base[0]);
    assert Ascii("widget") == ['w' as byte] + base[1..];
  }
}
