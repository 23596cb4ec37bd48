/**
 * A metadata box on a post's edit screen: a titled group of fields laid out in
 * columns. The markup `output` echoes is reduced to what it says about each field:
 * its label, the input's id and form name, and which control shows which value.
 */
module MetaBoxes {
  import opened Wrappers
  import opened OrderedMap
  import opened Names

  /** The control `outputField` emits for a field type (any other type gets only its label). */
  datatype Control =
    | TextInput(value: Option<string>)
    | TextArea(value: Option<string>)
    | Checkbox(checked: bool)
    | NoInput

  /** One field as rendered: `<label for=id>caption</label>` followed by its control. */
  datatype RenderedField = RenderedField(caption: string, inputId: string, formName: string, control: Control)

  /** The form name of a field, `custom_meta[name]`, which the browser submits as `custom_meta` entry `name`. */
  function FormName(name: string): string
  {
    "custom_meta[" + name + "]"
  }

  /** `array_key_exists($name, $values) ? $values[$name][0] : null`. */
  function Lookup(values: map<string, string>, name: string): Option<string>
  {
    if name in values then Some(values[name]) else None
  }

  /** `outputLabel` and `outputField`: the switch over the field type. */
  function OutputField(fieldType: string, name: string, caption: string, value: Option<string>): (r: RenderedField)
    ensures r.caption == caption && r.inputId == name && r.formName == FormName(name)
    ensures r.control.Checkbox? <==> fieldType == "checkbox"
    ensures fieldType == "checkbox" ==> (r.control.checked <==> value == Some("1"))
    ensures fieldType == "text" ==> r.control == TextInput(value)
    ensures fieldType == "textarea" ==> r.control == TextArea(value)
    ensures r.control.NoInput? <==> fieldType !in {"text", "textarea", "checkbox"}
  {
    var control :=
      if fieldType == "text" then TextInput(value)
      else if fieldType == "textarea" then TextArea(value)
      else if fieldType == "checkbox" then Checkbox(value == Some("1"))
      else NoInput;
    RenderedField(caption, name, FormName(name), control)
  }

  /** How `output` renders field `entry` (name and type) of the box with id `boxId`. */
  function RenderAt(boxId: string, entry: (string, string), values: map<string, string>): RenderedField
  {
    OutputField(entry.1, FieldName(boxId, entry.0), entry.0, Lookup(values, FieldName(boxId, entry.0)))
  }

  /** The meta keys of a field list of the box with id `boxId`, in field order. */
  function BoxNames(boxId: string, fields: Dict<string, string>): seq<string>
  {
    seq(|fields|, j requires 0 <= j < |fields| => FieldName(boxId, fields[j].0))
  }

  class MetaBox {
    const id: string
    const title: string
    var context: string
    /** Field name to field type, over all columns, in the order first added. */
    var fields: Dict<string, string>
    /** Column number to that column's fields, in the order the columns were first used. */
    var cols: Dict<int, Dict<string, string>>

    /** Some column holds field `f`. */
    ghost predicate InSomeColumn(f: string)
      reads this
    {
      exists c :: c in Keys(cols) && f in Keys(Get(cols, c))
    }

    /** The arrays have unique keys, and `fields` holds exactly the fields of the columns. */
    ghost predicate Valid()
      reads this
    {
      && NoDupKeys(fields)
      && NoDupKeys(cols)
      && (forall c :: c in Keys(cols) ==> NoDupKeys(Get(cols, c)))
      && (forall f :: f in Keys(fields) <==> InSomeColumn(f))
    }

    /** `new MetaBox($title, $fields)`: the id is the sanitized title; the fields go to column 0. */
    constructor (title: string, fields: Dict<string, string>)
      requires NoDupKeys(fields)
      ensures Valid()
      ensures id == Sanitize(title, "-") && this.title == title && context == "advanced"
      ensures this.fields == fields && cols == [(0, fields)]
    {
      id := Sanitize(title, "-");
      this.title := title;
      context := "advanced";
      this.fields := [];
      cols := [];
      new;
      AddFields(fields, 0);
      UnionDisjoint([], fields);
    }

    /** Adds `newFields` to column `col` and to `fields`; PHP's `+` keeps a field's first type. */
    method AddFields(newFields: Dict<string, string>, col: int)
      requires Valid() && NoDupKeys(newFields)
      modifies this`fields, this`cols
      ensures Valid()
      ensures fields == Union(old(fields), newFields)
      ensures cols == Put(old(cols), col,
        if col in Keys(old(cols)) then Union(Get(old(cols), col), newFields) else newFields)
      ensures forall f :: f in Keys(fields) <==> f in Keys(old(fields)) || f in Keys(newFields)
      ensures forall f :: f in Keys(old(fields)) ==> Get(fields, f) == Get(old(fields), f)
      ensures forall f :: f in Keys(newFields) && f !in Keys(old(fields)) ==> Get(fields, f) == Get(newFields, f)
      ensures Keys(fields) == Keys(old(fields)) + Absent(Keys(old(fields)), Keys(newFields))
    {
      var column := if col in Keys(cols) then Union(Get(cols, col), newFields) else newFields;
      if col in Keys(cols) {
        UnionGet(Get(cols, col), newFields);
        UnionNoDup(Get(cols, col), newFields);
      }
      var oldCols := cols;
      cols := Put(cols, col, column);
      fields := Union(fields, newFields);
      PutSpec(oldCols, col, column);
      UnionGet(old(fields), newFields);
      UnionKeys(old(fields), newFields);
      UnionNoDup(old(fields), newFields);
      forall c | c in Keys(cols)
        ensures NoDupKeys(Get(cols, c))
      {
      }
      forall f
        ensures f in Keys(fields) <==> InSomeColumn(f)
      {
        if f in Keys(newFields) {
          assert f in Keys(Get(cols, col));
        } else if f in Keys(old(fields)) {
          var c :| c in Keys(oldCols) && f in Keys(Get(oldCols, c));
          assert f in Keys(Get(cols, c));
        }
        if InSomeColumn(f) {
          var c :| c in Keys(cols) && f in Keys(Get(cols, c));
          if c != col {
            assert f in Keys(Get(oldCols, c));
          }
        }
      }
    }

    /** `getFields()`: every field of every column added so far, and no other. */
    function GetFields(): (r: Dict<string, string>)
      reads this
      ensures Valid() ==> forall f :: f in Keys(r) <==> InSomeColumn(f)
    {
      fields
    }

    method SetContext(context: string)
      modifies this`context
      ensures this.context == context
    {
      this.context := context;
    }

    /** What `output($values)` renders: per column, per field, the field under its meta key. */
    function Render(values: map<string, string>): seq<seq<RenderedField>>
      reads this
    {
      var cs := cols;
      seq(|cs|, c requires 0 <= c < |cs| =>
        seq(|cs[c].1|, j requires 0 <= j < |cs[c].1| => RenderAt(id, cs[c].1[j], values)))
    }

    /** `output($values)` with the stored values of the post: one group per column, in column order. */
    method Output(values: map<string, string>) returns (html: seq<seq<RenderedField>>)
      ensures |html| == |cols|
      ensures forall c :: 0 <= c < |cols| ==> |html[c]| == |cols[c].1|
      ensures forall c, j :: 0 <= c < |cols| && 0 <= j < |cols[c].1| ==>
        html[c][j].inputId == FieldName(id, cols[c].1[j].0) &&
        html[c][j] == OutputField(cols[c].1[j].1, html[c][j].inputId, cols[c].1[j].0, Lookup(values, html[c][j].inputId))
      ensures html == Render(values)
    {
      html := [];
      var c := 0;
      while c < |cols|
        invariant 0 <= c <= |cols|
        invariant |html| == c
        invariant forall c' :: 0 <= c' < c ==> html[c'] == Render(values)[c']
      {
        var column := cols[c].1;
        var group := [];
        var j := 0;
        while j < |column|
          invariant 0 <= j <= |column|
          invariant |group| == j
          invariant forall j' :: 0 <= j' < j ==> group[j'] == Render(values)[c][j']
        {
          var field := column[j].0;
          var name := FieldName(id, field);
          var value := if name in values then Some(values[name]) else None;
          group := group + [OutputField(column[j].1, name, field, value)];
          j := j + 1;
        }
        html := html + [group];
        c := c + 1;
      }
    }

    /** The meta keys `output` renders, one per field of each column. */
    function RenderedNames(): set<string>
      reads this
    {
      set c, j | 0 <= c < |cols| && 0 <= j < |cols[c].1| :: FieldName(id, cols[c].1[j].0)
    }

    /** The keys `output` renders are exactly the keys of the fields `getFields` returns. */
    lemma RenderedNamesAreFieldNames()
      requires Valid()
      ensures forall n :: n in RenderedNames() <==> n in BoxNames(id, fields)
    {
      forall n | n in RenderedNames()
        ensures n in BoxNames(id, fields)
      {
        var c, j :| 0 <= c < |cols| && 0 <= j < |cols[c].1| && n == FieldName(id, cols[c].1[j].0);
        var f := cols[c].1[j].0;
        GetAt(cols, c);
        assert Keys(cols[c].1)[j] == f;
        assert cols[c].0 in Keys(cols) && f in Keys(Get(cols, cols[c].0));
        assert InSomeColumn(f);
        var k :| 0 <= k < |fields| && Keys(fields)[k] == f;
        assert BoxNames(id, fields)[k] == n;
      }
      forall n | n in BoxNames(id, fields)
        ensures n in RenderedNames()
      {
        var k :| 0 <= k < |fields| && BoxNames(id, fields)[k] == n;
        var f := fields[k].0;
        assert Keys(fields)[k] == f;
        assert f in Keys(fields);
        assert InSomeColumn(f);
        var col :| col in Keys(cols) && f in Keys(Get(cols, col));
        var c := IndexOf(cols, col);
        assert Get(cols, col) == cols[c].1;
        var j :| 0 <= j < |cols[c].1| && Keys(cols[c].1)[j] == f;
        assert n == FieldName(id, cols[c].1[j].0);
      }
    }

    /** What `output` shows depends on the stored values of this box's own keys only. */
    lemma RenderDependsOnOwnKeys(v1: map<string, string>, v2: map<string, string>)
      requires forall n :: n in RenderedNames() ==> Lookup(v1, n) == Lookup(v2, n)
      ensures Render(v1) == Render(v2)
    {
      forall c | 0 <= c < |cols|
        ensures Render(v1)[c] == Render(v2)[c]
      {
        forall j | 0 <= j < |cols[c].1|
          ensures Render(v1)[c][j] == Render(v2)[c][j]
        {
          assert FieldName(id, cols[c].1[j].0) in RenderedNames();
        }
      }
    }
  }
}
