/**
 * The option dictionaries handed to the host: defaults derived from a human-readable
 * name, merged with the caller's overrides by `array_merge`. The translation helpers
 * `_x` and `__` are taken to return their text unchanged.
 */
module Options {
  import opened OrderedMap
  import opened Names

  /** The values that occur in label and argument arrays. */
  datatype Value =
    | Null
    | Str(s: string)
    | Int(i: int)
    | Bool(b: bool)
    | Strs(items: seq<string>)
    | Arr(entries: Dict<string, Value>)

  /** `$name . 's'`. */
  function Plural(name: string): string
  {
    name + "s"
  }

  /** The generated labels of a post type (custom-post-type.php:31-44). */
  function PostTypeDefaultLabels(name: string): Dict<string, Value>
  {
    var plural := Plural(name);
    [ ("name", Str(plural)),
      ("singular_name", Str(name)),
      ("add_new", Str("Add new")),
      ("add_new_item", Str("Add New " + name)),
      ("edit_item", Str("Edit " + name)),
      ("new_item", Str("New " + name)),
      ("all_items", Str("All " + plural)),
      ("view_item", Str("View " + name)),
      ("search_items", Str("Search " + plural)),
      ("not_found", Str("No " + ToLower(plural) + " found")),
      ("not_found_in_trash", Str("No " + ToLower(plural) + " found in Trash")),
      ("parent_item_colon", Str("")),
      ("menu_name", Str(plural)) ]
  }

  /** The default arguments of `register_post_type`, given the merged labels. */
  function PostTypeDefaultArgs(name: string, labels: Dict<string, Value>): Dict<string, Value>
  {
    [ ("label", Str(Plural(name))),
      ("labels", Arr(labels)),
      ("public", Bool(true)),
      ("show_ui", Bool(true)),
      ("supports", Strs(["title", "editor"])),
      ("show_in_nav_menus", Bool(true)),
      ("_builtin", Bool(false)) ]
  }

  /** The labels the constructor computes: the generated ones overridden by the caller's. */
  function PostTypeLabels(name: string, labels: Dict<string, Value>): Dict<string, Value>
  {
    Merge(PostTypeDefaultLabels(name), labels)
  }

  /** The `$postTypeArgs` the constructor computes. */
  function PostTypeArgs(name: string, args: Dict<string, Value>, labels: Dict<string, Value>): Dict<string, Value>
  {
    Merge(PostTypeDefaultArgs(name, PostTypeLabels(name, labels)), args)
  }

  /** The generated labels of a taxonomy (custom-post-type.php:76-88). */
  function TaxonomyDefaultLabels(name: string): Dict<string, Value>
  {
    var plural := Plural(name);
    [ ("name", Str(plural)),
      ("singular_name", Str(name)),
      ("search_items", Str("Search " + plural)),
      ("all_items", Str("All " + plural)),
      ("parent_item", Str("Parent " + name)),
      ("parent_item_colon", Str("Parent " + name + ":")),
      ("edit_item", Str("Edit " + name)),
      ("update_item", Str("Update " + name)),
      ("add_new_item", Str("Add New " + name)),
      ("new_item_name", Str("New " + name + " Name")),
      ("menu_name", Str(name)) ]
  }

  /** The default arguments of `register_taxonomy`, given the merged labels. */
  function TaxonomyDefaultArgs(name: string, labels: Dict<string, Value>): Dict<string, Value>
  {
    [ ("label", Str(Plural(name))),
      ("labels", Arr(labels)),
      ("public", Bool(true)),
      ("show_ui", Bool(true)),
      ("show_in_nav_menus", Bool(true)),
      ("_builtin", Bool(false)) ]
  }

  function TaxonomyLabels(name: string, labels: Dict<string, Value>): Dict<string, Value>
  {
    Merge(TaxonomyDefaultLabels(name), labels)
  }

  /** The arguments `addTaxonomy` stores for a taxonomy. */
  function TaxonomyArgs(name: string, args: Dict<string, Value>, labels: Dict<string, Value>): Dict<string, Value>
  {
    Merge(TaxonomyDefaultArgs(name, TaxonomyLabels(name, labels)), args)
  }

  /**
   * Override and default precedence of one merge: the caller's keys take the caller's
   * values, the other default keys keep the default values, the defaults come first in
   * their own order followed by the caller's new keys, and no key appears twice.
   */
  predicate MergedOver(defaults: Dict<string, Value>, given: Dict<string, Value>, r: Dict<string, Value>)
  {
    && (forall k :: k in Keys(given) ==> k in Keys(r) && Get(r, k) == Get(given, k))
    && (forall k :: k in Keys(defaults) && k !in Keys(given) ==> k in Keys(r) && Get(r, k) == Get(defaults, k))
    && Keys(r) == Keys(defaults) + Absent(Keys(defaults), Keys(given))
    && NoDupKeys(r)
  }

  lemma MergeIsMergedOver(defaults: Dict<string, Value>, given: Dict<string, Value>)
    requires NoDupKeys(defaults) && NoDupKeys(given)
    ensures MergedOver(defaults, given, Merge(defaults, given))
  {
    MergeGet(defaults, given);
    MergeKeys(defaults, given);
    MergeNoDup(defaults, given);
  }

  lemma PostTypeDefaultsNoDup(name: string, labels: Dict<string, Value>)
    ensures NoDupKeys(PostTypeDefaultLabels(name))
    ensures NoDupKeys(PostTypeDefaultArgs(name, labels))
  {
  }

  lemma TaxonomyDefaultsNoDup(name: string, labels: Dict<string, Value>)
    ensures NoDupKeys(TaxonomyDefaultLabels(name))
    ensures NoDupKeys(TaxonomyDefaultArgs(name, labels))
  {
  }

  /**
   * The constructor's defaults merge: caller labels and arguments override, the
   * generated ones fill the rest, and unless the caller overrides `labels` itself the
   * `labels` argument is the merged label array.
   */
  lemma PostTypeArgsPrecedence(name: string, args: Dict<string, Value>, labels: Dict<string, Value>)
    requires NoDupKeys(args) && NoDupKeys(labels)
    ensures MergedOver(PostTypeDefaultLabels(name), labels, PostTypeLabels(name, labels))
    ensures MergedOver(PostTypeDefaultArgs(name, PostTypeLabels(name, labels)), args, PostTypeArgs(name, args, labels))
    ensures "labels" !in Keys(args) ==>
      "labels" in Keys(PostTypeArgs(name, args, labels)) &&
      Get(PostTypeArgs(name, args, labels), "labels") == Arr(PostTypeLabels(name, labels))
  {
    var merged := PostTypeLabels(name, labels);
    var defaults := PostTypeDefaultArgs(name, merged);
    PostTypeDefaultsNoDup(name, merged);
    MergeIsMergedOver(PostTypeDefaultLabels(name), labels);
    MergeIsMergedOver(defaults, args);
    assert Keys(defaults)[1] == "labels";
    GetAt(defaults, 1);
  }

  /** The same precedence for the arrays `addTaxonomy` builds. */
  lemma TaxonomyArgsPrecedence(name: string, args: Dict<string, Value>, labels: Dict<string, Value>)
    requires NoDupKeys(args) && NoDupKeys(labels)
    ensures MergedOver(TaxonomyDefaultLabels(name), labels, TaxonomyLabels(name, labels))
    ensures MergedOver(TaxonomyDefaultArgs(name, TaxonomyLabels(name, labels)), args, TaxonomyArgs(name, args, labels))
    ensures "labels" !in Keys(args) ==>
      "labels" in Keys(TaxonomyArgs(name, args, labels)) &&
      Get(TaxonomyArgs(name, args, labels), "labels") == Arr(TaxonomyLabels(name, labels))
  {
    var merged := TaxonomyLabels(name, labels);
    var defaults := TaxonomyDefaultArgs(name, merged);
    TaxonomyDefaultsNoDup(name, merged);
    MergeIsMergedOver(TaxonomyDefaultLabels(name), labels);
    MergeIsMergedOver(defaults, args);
    assert Keys(defaults)[1] == "labels";
    GetAt(defaults, 1);
  }

  /** Without overrides a post type "Book" is labelled "Books" and registered as public. */
  lemma PostTypeExample(name: string)
    requires name == "Book"
    ensures "label" in Keys(PostTypeArgs(name, [], [])) && Get(PostTypeArgs(name, [], []), "label") == Str("Books")
    ensures "public" in Keys(PostTypeArgs(name, [], [])) && Get(PostTypeArgs(name, [], []), "public") == Bool(true)
    ensures "add_new_item" in Keys(PostTypeLabels(name, []))
    ensures Get(PostTypeLabels(name, []), "add_new_item") == Str("Add New Book")
  {
    PostTypeArgsPrecedence(name, [], []);
    var d := PostTypeDefaultArgs(name, PostTypeLabels(name, []));
    GetAt(d, 0);
    GetAt(d, 2);
    GetAt(PostTypeDefaultLabels(name), 3);
  }
}
