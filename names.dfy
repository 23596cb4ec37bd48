/**
 * Name derivation shared by `CustomPostType` and `MetaBox`: both PHP classes carry
 * an identical private copy of `sanitize` and `fieldName`; here each is defined once.
 */
module Names {

  /** PHP `strtolower` on one character (ASCII letters only). */
  function LowerChar(c: char): char
  {
    if 'A' <= c <= 'Z' then (c as int + 32) as char else c
  }

  /** PHP `strtolower`. */
  function ToLower(s: string): string
  {
    seq(|s|, i requires 0 <= i < |s| => LowerChar(s[i]))
  }

  /** PHP `str_replace(c, rep, s)` for a one-character search string. */
  function ReplaceChar(s: string, c: char, rep: string): string
  {
    if s == [] then []
    else (if s[0] == c then rep else [s[0]]) + ReplaceChar(s[1..], c, rep)
  }

  /** `sanitize($name, $replace)`: lower-case, then every space becomes `replace`. */
  function Sanitize(name: string, replace: string): string
  {
    ReplaceChar(ToLower(name), ' ', replace)
  }

  /** `fieldName($metaBoxId, $field)`: the meta key under which a field's value is stored. */
  function FieldName(boxId: string, field: string): string
  {
    ReplaceChar(boxId, '-', "_") + "_" + Sanitize(field, "_")
  }

  /** Replacing a character by a single character keeps the length and works position by position. */
  lemma {:induction false} ReplaceByChar(s: string, c: char, r: char)
    ensures |ReplaceChar(s, c, [r])| == |s|
    ensures forall i :: 0 <= i < |s| ==> ReplaceChar(s, c, [r])[i] == if s[i] == c then r else s[i]
  {
    if s != [] {
      ReplaceByChar(s[1..], c, r);
      var t := ReplaceChar(s, c, [r]);
      assert t == (if s[0] == c then [r] else [s[0]]) + ReplaceChar(s[1..], c, [r]);
      forall i | 0 <= i < |s|
        ensures t[i] == if s[i] == c then r else s[i]
      {
        if i > 0 {
          assert t[i] == ReplaceChar(s[1..], c, [r])[i - 1];
        }
      }
    }
  }

  /** After the replacement the searched character is gone, unless the replacement brings it back. */
  lemma {:induction false} ReplaceRemoves(s: string, c: char, rep: string)
    requires c !in rep
    ensures c !in ReplaceChar(s, c, rep)
  {
    if s != [] {
      ReplaceRemoves(s[1..], c, rep);
      assert ReplaceChar(s, c, rep) == (if s[0] == c then rep else [s[0]]) + ReplaceChar(s[1..], c, rep);
    }
  }

  /**
   * `sanitize(name, r)` with a one-character replacement is `strtolower(name)` with
   * every space replaced by `r`; every other character (hyphens included) is kept.
   */
  lemma SanitizeChars(name: string, r: char)
    ensures |Sanitize(name, [r])| == |name|
    ensures forall i :: 0 <= i < |name| ==>
      Sanitize(name, [r])[i] == if name[i] == ' ' then r else LowerChar(name[i])
    ensures r != ' ' ==> ' ' !in Sanitize(name, [r])
  {
    ReplaceByChar(ToLower(name), ' ', r);
    if r != ' ' {
      ReplaceRemoves(ToLower(name), ' ', [r]);
    }
  }

  /** Whatever the replacement string, a sanitized name holds no space unless the replacement does. */
  lemma SanitizeNoSpace(name: string, replace: string)
    requires ' ' !in replace
    ensures ' ' !in Sanitize(name, replace)
  {
    ReplaceRemoves(ToLower(name), ' ', replace);
  }

  /**
   * The exact shape of a meta key: the box id with `-` turned into `_`, one `_`,
   * then the field label lower-cased with spaces turned into `_`.
   */
  lemma FieldNameChars(boxId: string, field: string)
    ensures |FieldName(boxId, field)| == |boxId| + 1 + |field|
    ensures forall i :: 0 <= i < |boxId| ==>
      FieldName(boxId, field)[i] == if boxId[i] == '-' then '_' else boxId[i]
    ensures FieldName(boxId, field)[|boxId|] == '_'
    ensures forall j :: 0 <= j < |field| ==>
      FieldName(boxId, field)[|boxId| + 1 + j] == if field[j] == ' ' then '_' else LowerChar(field[j])
  {
    ReplaceByChar(boxId, '-', '_');
    SanitizeChars(field, '_');
  }

  /**
   * The key of a field of a box created from `title`: both the title's spaces (turned
   * into `-` by the box id) and its own hyphens end up as `_`, and the key has no space.
   */
  lemma BoxFieldName(title: string, field: string)
    ensures |FieldName(Sanitize(title, "-"), field)| == |title| + 1 + |field|
    ensures forall i :: 0 <= i < |title| ==>
      FieldName(Sanitize(title, "-"), field)[i] == if title[i] in " -" then '_' else LowerChar(title[i])
    ensures ' ' !in FieldName(Sanitize(title, "-"), field)
  {
    var id := Sanitize(title, "-");
    SanitizeChars(title, '-');
    FieldNameChars(id, field);
    SanitizeChars(field, '_');
    ReplaceByChar(id, '-', '_');
    ReplaceRemoves(id, ' ', "_");
    var k := FieldName(id, field);
    assert k == ReplaceChar(id, '-', "_") + "_" + Sanitize(field, "_");
    forall i | 0 <= i < |k| ensures k[i] != ' ' {
      if i < |id| {
        assert k[i] == ReplaceChar(id, '-', "_")[i];
      } else if i > |id| {
        assert k[i] == Sanitize(field, "_")[i - |id| - 1];
      }
    }
  }

  /** A box titled "Book Author" gets the id "book-author". */
  lemma SanitizeExample(title: string)
    requires title == "Book Author"
    ensures Sanitize(title, "-") == "book-author"
  {
    SanitizeChars(title, '-');
  }

  /** Field "Page Count" of the box titled "Book Details" is stored under "book_details_page_count". */
  lemma FieldNameExample(title: string, field: string)
    requires title == "Book Details" && field == "Page Count"
    ensures Sanitize(title, "-") == "book-details"
    ensures FieldName(Sanitize(title, "-"), field) == "book_details_page_count"
  {
    var id := Sanitize(title, "-");
    SanitizeChars(title, '-');
    assert id == "book-details";
    ReplaceByChar(id, '-', '_');
    assert ReplaceChar(id, '-', "_") == "book_details";
    SanitizeChars(field, '_');
    assert Sanitize(field, "_") == "page_count";
  }

  /**
   * Keys are not unique across boxes: field "C" of box "A B" and field "B C" of
   * box "A" are both stored under "a_b_c".
   */
  lemma FieldNameCollision()
    ensures Sanitize("A B", "-") != Sanitize("A", "-")
    ensures FieldName(Sanitize("A B", "-"), "C") == FieldName(Sanitize("A", "-"), "B C") == "a_b_c"
  {
    SanitizeChars("A B", '-');
    SanitizeChars("A", '-');
    FieldNameChars("a-b", "C");
    FieldNameChars("a", "B C");
  }
}
