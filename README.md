# WordPress custom post type helper — Dafny model

This project models `custom-post-type.php`, a helper that registers a WordPress
custom post type together with its taxonomies and edit-screen metadata boxes, and
saves the boxes' fields when a post is saved. Two classes make it up:
`CustomPostType` (the post type, its taxonomies and box table) and `MetaBox` (a
titled group of fields laid out in columns).

The model keeps the source's form:

- `Names` (pure): `sanitize` and `fieldName`. Both PHP classes carry an identical
  private copy of each (custom-post-type.php:189-195 and 269-275). Here each is
  defined once, so the key `MetaBox::output` renders and the key `saveMeta`
  writes are computed by the same function by construction.
- `OrderedMap` (pure): PHP arrays with string keys, as a sequence of key/value
  entries in insertion order. `Put` is `$a[$k] = $v`, `Merge` is
  `array_merge`, and `Union` is the `+` operator. Lemmas give each one's lookup
  and key-order semantics.
- `Options` (pure): the default label and argument arrays built by the
  constructor and by `addTaxonomy`, and their merge with the caller's overrides.
- `MetaBoxes` (imperative): class `MetaBox` with `fields` and `cols` updated in
  place by `AddFields`. `Output` is a nested loop that yields one rendered entry
  per field.
- `PostTypes` (imperative): class `CustomPostType`. Its host calls
  (`add_action`, `register_taxonomy`, `register_post_type`,
  `register_taxonomy_for_object_type`, `add_meta_box`) are `HostCall` events.
  `add_action` calls are appended to the `hooks` field; `Register` and
  `RegisterMetaBoxes` return their calls as ordered traces. `SaveMeta` works on
  the post's meta store and takes as parameters the host's answers: the autosave
  flag, the nonce check, the saved post's type and the submitted `custom_meta`
  map.

PHP arrays never hold a key twice. `NoDupKeys` states this, so a `requires
NoDupKeys(...)` on a caller-supplied array is part of that array's type. It does
not narrow what callers may pass.

Only the box id's hyphens become `_` (custom-post-type.php:190). A hyphen in the
field label is kept: field "Page-Count" of box "Book" is stored under
`book_page-count`.

The model follows PHP 7. There, `new CustomPostType(...)` runs the PHP 4-style
constructor method `CustomPostType` (custom-post-type.php:20), and under the
default C locale `strtolower` changes only ASCII letters.

## Model

| member | source | states |
|---|---|---|
| Names.ReplaceByChar | custom-post-type.php:194 | `str_replace` of one character by one character keeps the length and replaces exactly the matching positions |
| Names.SanitizeChars | custom-post-type.php:193-195 | `sanitize(name, r)` is `strtolower(name)` with every space replaced by `r`; every other character, hyphens included, is kept; no space remains when `r` is not a space (same for the MetaBox copy at 269-271) |
| Names.SanitizeNoSpace | custom-post-type.php:269-271 | for any replacement string without a space, the sanitized name contains no space |
| Names.FieldNameChars | custom-post-type.php:189-191 | the key is the box id with `-` turned into `_`, then `_`, then the field label lower-cased with spaces turned into `_`, position by position (same for the MetaBox copy at 273-275) |
| Names.BoxFieldName | custom-post-type.php:210 | for a box built from a title, the key's title part is the title lower-cased with both spaces and hyphens turned into `_`, and the key has no space |
| Names.SanitizeExample | custom-post-type.php:210 | the title "Book Author" gives the id "book-author" |
| Names.FieldNameExample | custom-post-type.php:273-275 | field "Page Count" of box "Book Details" (id "book-details") is stored under "book_details_page_count" |
| Names.FieldNameCollision | custom-post-type.php:176 | distinct boxes can share a key: field "C" of box "A B" and field "B C" of box "A" are both "a_b_c" |
| OrderedMap.PutSpec | custom-post-type.php:117 | `$a[$k] = $v` gives `k` the value `v`, keeps every other key's value, keeps the key order (a new key goes last) and keeps keys unique |
| OrderedMap.MergeKeys | custom-post-type.php:31-45 | `array_merge(a, b)`: `a`'s keys in their order, then `b`'s keys absent from `a` in `b`'s order |
| OrderedMap.MergeGet | custom-post-type.php:48-56 | `array_merge` is right-biased: keys of `b` take `b`'s value, other keys of `a` keep theirs, no other key appears |
| OrderedMap.MergeNoDup | custom-post-type.php:91-98 | `array_merge` of arrays is an array: keys stay unique |
| OrderedMap.UnionKeys | custom-post-type.php:221 | `a + b`: `a`'s keys in their order, then `b`'s keys absent from `a` in `b`'s order |
| OrderedMap.UnionGet | custom-post-type.php:217 | `a + b` is left-biased: keys of `a` keep `a`'s value, other keys of `b` take `b`'s, no other key appears |
| OrderedMap.UnionNoDup | custom-post-type.php:216-221 | `a + b` of arrays is an array: keys stay unique |
| OrderedMap.UnionDisjoint | custom-post-type.php:212 | `+` onto an array sharing no key is concatenation, so a new box's fields are exactly the given ones |
| Options.PostTypeArgsPrecedence | custom-post-type.php:24-56 | each caller label and argument takes the caller's value; each other default keeps the generated value; defaults come first in their order, then the caller's new keys; `labels` is the merged label array unless the caller overrides `labels` |
| Options.TaxonomyArgsPrecedence | custom-post-type.php:72-98 | the same precedence, order and `labels` nesting for the arrays `addTaxonomy` builds |
| Options.PostTypeExample | custom-post-type.php:28-53 | with no overrides, post type "Book" gets label "Books", `public` true and add-new label "Add New Book" |
| MetaBoxes.OutputField | custom-post-type.php:246-263 | label and input use the key as id and `custom_meta[key]` as form name; text and textarea show the stored value; a checkbox is checked iff the value is "1"; other types render only the label |
| MetaBoxes.MetaBox.constructor | custom-post-type.php:209-213 | the id is the title sanitized with `-`, the context is "advanced", and the given fields become both `fields` and column 0 |
| MetaBoxes.MetaBox.AddFields | custom-post-type.php:215-222 | column `col` and `fields` grow by left-biased `+` (a column first used is assigned); existing fields keep their type; new fields are appended in order; `fields` stays exactly the union of the columns |
| MetaBoxes.MetaBox.GetFields | custom-post-type.php:224-226 | the returned fields are exactly the fields of all columns added so far |
| MetaBoxes.MetaBox.SetContext | custom-post-type.php:265-267 | sets the context |
| MetaBoxes.MetaBox.Output | custom-post-type.php:228-244 | one group per column in column order, one entry per field in order, each rendered under `fieldName(id, field)` with the stored value of that key |
| MetaBoxes.MetaBox.RenderedNamesAreFieldNames | custom-post-type.php:231-235 | the keys `output` renders are exactly the keys of the fields `getFields` returns |
| MetaBoxes.MetaBox.RenderDependsOnOwnKeys | custom-post-type.php:233-237 | what `output` shows depends only on the stored values of the box's own keys |
| PostTypes.ApplySaveSpec | custom-post-type.php:176-181 | after visiting a list of keys, each visited key holds the submitted value if one was submitted and is absent otherwise; every other key keeps its stored value |
| PostTypes.InNamesOf | custom-post-type.php:174-176 | `saveMeta` visits a key iff it is the key of a field of some box under that box's table key |
| PostTypes.CustomPostType.constructor | custom-post-type.php:20-59 | the name is sanitized; an existing post type gets no hook and no arguments; otherwise `init` is hooked once and the arguments are the merged defaults |
| PostTypes.CustomPostType.AddTaxonomy | custom-post-type.php:68-104 | an empty name ("" or "0") adds nothing; otherwise exactly one entry with the sanitized name and the merged arguments is appended |
| PostTypes.CustomPostType.AddMetaboxObject | custom-post-type.php:116-124 | the box is stored under its id, replacing a box of that id in place and leaving the other ids unchanged; the two meta hooks are added on the first call only, and the flag stays true |
| PostTypes.CustomPostType.AddMetaBox | custom-post-type.php:112-114 | a fresh box built from the title and fields (context "advanced", the fields as column 0) is added as by `addMetaboxObject` |
| PostTypes.CustomPostType.Register | custom-post-type.php:126-145 | the trace is every `register_taxonomy` in `$taxonomies` order, then `register_post_type`, then every `register_taxonomy_for_object_type` in the same order |
| PostTypes.CustomPostType.RegisterMetaBoxes | custom-post-type.php:147-153 | one `add_meta_box` per stored box, in table order, with its id, title and context on this post type's screen |
| PostTypes.CustomPostType.MetaboxContent | custom-post-type.php:155-163 | the box named by the host renders the post's stored values; an unknown id gives no output |
| PostTypes.CustomPostType.SaveMeta | custom-post-type.php:165-187 | autosave, a failed nonce or another post type leave the store unchanged; otherwise every field key of every box holds the submitted value or is deleted, and no other key changes |
| PostTypes.CustomPostType.RenderedNamesAreSaveNames | custom-post-type.php:174-181 | round trip: the keys the edit forms render, over all boxes, are exactly the keys `saveMeta` updates or deletes |
| PostTypes.CustomPostType.SavedValuesAreShown | custom-post-type.php:235-236 | after a save, every box's edit form renders exactly as if the store held the submitted values |

## Left out

- WordPress itself is not modelled. `post_type_exists` becomes the caller's set of existing post types. `wp_verify_nonce` becomes a boolean, and so does `DOING_AUTOSAVE`. `get_post_type` becomes a string. `$_POST['custom_meta']` becomes a map. `get_post_custom`, `update_post_meta` and `delete_post_meta` become a map from key to value and updates of that map.
- Calls into WordPress are recorded as `HostCall` values, not executed. What WordPress does with them is not modelled.
- The `wp_nonce_field` call in `metaboxContent` is not recorded. An unknown box id there makes the PHP code call a method on `null`, which is a fatal error; the model returns `None` instead.
- The echoed HTML, its inline styles and the missing escaping of values are not modelled. Only label text, input id, form name and control kind are kept.
- WordPress can hold several values per meta key, and `output` shows the first. The model keeps one value per key.
- PHP's parsing of `custom_meta[key]` into the submitted map is taken as exact. Keys containing `[` or `]`, which PHP would parse differently, are not modelled.
- `isset($_POST)` is taken as true. `isset` on a submitted `null` is not modelled: submitted values are strings.
- The translation helpers `_x` and `__` return their text unchanged.
- `strtolower` lower-cases only ASCII letters, as PHP 7 does under the default C locale. Other locales are not modelled.
- PHP 8.0 and later no longer treat a method named after its class as a constructor. Under those versions `new CustomPostType(...)` runs none of custom-post-type.php:22-56: no sanitized name, no `init` hook, no arguments. The model's constructor follows PHP 7 and does not capture this.
- Values in label and argument arrays are strings, integers, booleans, `null`, string lists and nested string-keyed arrays. Floats and objects are not modelled.
- Only string keys are modelled. `array_merge` renumbers integer keys; label, argument and field arrays use string keys.
- `OutputField`: a checkbox is checked iff the value is exactly "1". PHP's loose `$value == 1` also accepts strings such as "01" or "1.0"; that is not modelled.
- The undefined-index notice `addFields` raises for a new column is PHP diagnostics: a new column is simply assigned.
- `MetaBox::$id` and `$title` are public and could be reassigned from outside. The class never reassigns them, and the model makes them constants.
- `AddMetaboxObject` requires the box to satisfy `Valid()`. Every box built by the constructor does.
