/**
 * `CustomPostType`: registers one post type with its taxonomies and metadata boxes,
 * and saves the boxes' fields when a post of that type is saved. Calls into the host
 * are recorded as `HostCall` events; the host's answers (whether a post type exists,
 * the nonce check, the type of the saved post, the submitted form, the post's meta
 * store) are parameters.
 */
module PostTypes {
  import opened Wrappers
  import opened OrderedMap
  import opened Names
  import opened Options
  import opened MetaBoxes

  /** The methods of this object the host is asked to call back. */
  datatype Callback = Register | RegisterMetaBoxes | SaveMeta | MetaboxContent

  /** A call into the host. */
  datatype HostCall =
    | AddAction(hook: string, callback: Callback)
    | RegisterTaxonomy(taxonomy: string, objectType: Option<string>, taxonomyArgs: Dict<string, Value>)
    | RegisterPostType(postType: string, postTypeArgs: Option<Dict<string, Value>>)
    | RegisterTaxonomyForObjectType(taxonomy: string, postType: string)
    | AddMetaBox(boxId: string, title: string, callback: Callback, screen: string, context: string)

  /** An entry of `$taxonomies`: the sanitized name and the merged arguments. */
  datatype Taxonomy = Taxonomy(name: string, args: Dict<string, Value>)

  const InitHook: HostCall := AddAction("init", Callback.Register)
  const MetaHooks: seq<HostCall> :=
    [AddAction("add_meta_boxes", Callback.RegisterMetaBoxes), AddAction("save_post", Callback.SaveMeta)]

  /** PHP `empty()` on a string. */
  predicate IsEmpty(s: string)
  {
    s == "" || s == "0"
  }

  /** One field of `saveMeta`: `update_post_meta` with the submitted value, or `delete_post_meta`. */
  function SaveField(store: map<string, string>, submitted: map<string, string>, name: string): map<string, string>
  {
    if name in submitted then store[name := submitted[name]] else store - {name}
  }

  /** The meta store after `saveMeta` visits the keys `names` in order. */
  function ApplySave(store: map<string, string>, submitted: map<string, string>, names: seq<string>): map<string, string>
    decreases |names|
  {
    if names == [] then store
    else SaveField(ApplySave(store, submitted, names[..|names| - 1]), submitted, names[|names| - 1])
  }

  /**
   * Exactly the visited keys change: each holds the submitted value if there is one
   * and is absent otherwise; every other key keeps its stored value.
   */
  lemma {:induction false} ApplySaveSpec(store: map<string, string>, submitted: map<string, string>, names: seq<string>)
    ensures forall n :: n in names ==> Lookup(ApplySave(store, submitted, names), n) == Lookup(submitted, n)
    ensures forall n :: n !in names ==> Lookup(ApplySave(store, submitted, names), n) == Lookup(store, n)
    decreases |names|
  {
    if names != [] {
      var init := names[..|names| - 1];
      ApplySaveSpec(store, submitted, init);
      assert names == init + [names[|names| - 1]];
    }
  }

  /** Visiting one more field of a box is one more `SaveField` step. */
  lemma SaveNext(store: map<string, string>, submitted: map<string, string>, before: seq<string>,
                 boxId: string, fields: Dict<string, string>, j: nat)
    requires j < |fields|
    ensures ApplySave(store, submitted, before + BoxNames(boxId, fields[..j + 1]))
         == SaveField(ApplySave(store, submitted, before + BoxNames(boxId, fields[..j])), submitted, FieldName(boxId, fields[j].0))
  {
    var visited := before + BoxNames(boxId, fields[..j]);
    assert before + BoxNames(boxId, fields[..j + 1]) == visited + [FieldName(boxId, fields[j].0)];
    assert (visited + [FieldName(boxId, fields[j].0)])[..|visited|] == visited;
  }

  /** The boxes of a box table. */
  function BoxesOf(boxes: Dict<string, MetaBox>): set<MetaBox>
  {
    set i | 0 <= i < |boxes| :: boxes[i].1
  }

  /** The meta keys `saveMeta` visits: for each box in table order, its fields in order. */
  function NamesOf(boxes: Dict<string, MetaBox>): seq<string>
    reads BoxesOf(boxes)
    decreases |boxes|
  {
    if boxes == [] then []
    else
      var init := boxes[..|boxes| - 1];
      assert BoxesOf(init) <= BoxesOf(boxes) by {
        forall b | b in BoxesOf(init) ensures b in BoxesOf(boxes) {
          var i :| 0 <= i < |init| && init[i].1 == b;
          assert boxes[i].1 == b;
        }
      }
      NamesOf(init) + BoxNames(boxes[|boxes| - 1].0, boxes[|boxes| - 1].1.fields)
  }

  /** The keys of the first `i + 1` boxes are those of the first `i` followed by box `i`'s. */
  lemma NamesOfNext(boxes: Dict<string, MetaBox>, i: nat)
    requires i < |boxes|
    ensures NamesOf(boxes[..i + 1]) == NamesOf(boxes[..i]) + BoxNames(boxes[i].0, boxes[i].1.fields)
  {
    assert boxes[..i + 1][..i] == boxes[..i];
  }

  /** A key is visited exactly when it is a field key of some box of the table. */
  lemma {:induction false} InNamesOf(boxes: Dict<string, MetaBox>, n: string)
    ensures n in NamesOf(boxes) <==> exists i :: 0 <= i < |boxes| && n in BoxNames(boxes[i].0, boxes[i].1.fields)
    decreases |boxes|
  {
    if boxes != [] {
      var init := boxes[..|boxes| - 1];
      InNamesOf(init, n);
      if n in NamesOf(init) {
        var i :| 0 <= i < |init| && n in BoxNames(init[i].0, init[i].1.fields);
        assert boxes[i] == init[i];
      }
      if exists i :: 0 <= i < |boxes| && n in BoxNames(boxes[i].0, boxes[i].1.fields) {
        var i :| 0 <= i < |boxes| && n in BoxNames(boxes[i].0, boxes[i].1.fields);
        if i < |init| {
          assert init[i] == boxes[i];
        }
      }
    }
  }

  class CustomPostType {
    const postTypeName: string
    /** `$postTypeArgs`; `None` when the post type already existed. */
    const postTypeArgs: Option<Dict<string, Value>>
    var metaActionsRegistered: bool
    var taxonomies: seq<Taxonomy>
    /** `$metaBoxes`: box id to box, in the order the ids were first added. */
    var metaBoxes: Dict<string, MetaBox>
    /** The `add_action` calls this object has made, in order. */
    var hooks: seq<HostCall>

    function Boxes(): set<MetaBox>
      reads this
    {
      BoxesOf(metaBoxes)
    }

    /**
     * Every box is stored under its own id, and the hooks registered so far are the
     * `init` hook (when the post type was new) followed by the two meta hooks exactly
     * when the flag is set.
     */
    ghost predicate Valid()
      reads this, Boxes()
    {
      && NoDupKeys(metaBoxes)
      && (forall i :: 0 <= i < |metaBoxes| ==> metaBoxes[i].0 == metaBoxes[i].1.id)
      && (forall b :: b in Boxes() ==> b.Valid())
      && hooks == (if postTypeArgs.Some? then [InitHook] else []) + (if metaActionsRegistered then MetaHooks else [])
    }

    /**
     * `new CustomPostType($name, $args, $labels)`. When the sanitized name is already a
     * registered post type nothing is hooked and no arguments are set.
     */
    constructor (name: string, args: Dict<string, Value>, labels: Dict<string, Value>, existingPostTypes: set<string>)
      ensures Valid()
      ensures postTypeName == Sanitize(name, "-")
      ensures postTypeName in existingPostTypes ==> postTypeArgs == None && hooks == []
      ensures postTypeName !in existingPostTypes ==>
        postTypeArgs == Some(PostTypeArgs(name, args, labels)) && hooks == [InitHook]
      ensures taxonomies == [] && metaBoxes == [] && !metaActionsRegistered
    {
      postTypeName := Sanitize(name, "-");
      if Sanitize(name, "-") !in existingPostTypes {
        hooks := [InitHook];
        postTypeArgs := Some(PostTypeArgs(name, args, labels));
      } else {
        hooks := [];
        postTypeArgs := None;
      }
      metaActionsRegistered := false;
      taxonomies := [];
      metaBoxes := [];
    }

    /** `addTaxonomy($name, $args, $labels)`: appends one taxonomy unless the name is empty. */
    method AddTaxonomy(name: string, args: Dict<string, Value>, labels: Dict<string, Value>)
      requires Valid()
      modifies this`taxonomies
      ensures Valid()
      ensures IsEmpty(name) ==> taxonomies == old(taxonomies)
      ensures !IsEmpty(name) ==>
        taxonomies == old(taxonomies) + [Taxonomy(Sanitize(name, "-"), TaxonomyArgs(name, args, labels))]
    {
      if !IsEmpty(name) {
        var taxonomyName := Sanitize(name, "-");
        taxonomies := taxonomies + [Taxonomy(taxonomyName, TaxonomyArgs(name, args, labels))];
      }
    }

    /**
     * `addMetaboxObject($metaBox)`: stores the box under its id (replacing a box with the
     * same id in place), and registers the two meta hooks on the first call only.
     */
    method AddMetaboxObject(box: MetaBox)
      requires Valid() && box.Valid()
      modifies this`metaBoxes, this`metaActionsRegistered, this`hooks
      ensures Valid()
      ensures metaBoxes == Put(old(metaBoxes), box.id, box)
      ensures box.id in Keys(metaBoxes) && Get(metaBoxes, box.id) == box
      ensures forall k :: k in Keys(old(metaBoxes)) && k != box.id ==>
        k in Keys(metaBoxes) && Get(metaBoxes, k) == Get(old(metaBoxes), k)
      ensures metaActionsRegistered
      ensures hooks == if old(metaActionsRegistered) then old(hooks) else old(hooks) + MetaHooks
    {
      PutSpec(metaBoxes, box.id, box);
      metaBoxes := Put(metaBoxes, box.id, box);
      if !metaActionsRegistered {
        hooks := hooks + MetaHooks;
        metaActionsRegistered := true;
      }
    }

    /** `addMetaBox($title, $fields)`: a new box built from the title and fields, then added. */
    method AddMetaBox(title: string, fields: Dict<string, string>) returns (box: MetaBox)
      requires Valid() && NoDupKeys(fields)
      modifies this`metaBoxes, this`metaActionsRegistered, this`hooks
      ensures Valid() && fresh(box)
      ensures box.id == Sanitize(title, "-") && box.title == title && box.fields == fields
      ensures box.context == "advanced" && box.cols == [(0, fields)]
      ensures metaBoxes == Put(old(metaBoxes), box.id, box)
      ensures metaActionsRegistered
      ensures hooks == if old(metaActionsRegistered) then old(hooks) else old(hooks) + MetaHooks
    {
      box := new MetaBox(title, fields);
      AddMetaboxObject(box);
    }

    /**
     * `register()`: every taxonomy is registered before the post type and attached to
     * it after, both in `$taxonomies` order.
     */
    method Register() returns (calls: seq<HostCall>)
      ensures |calls| == 2 * |taxonomies| + 1
      ensures forall i :: 0 <= i < |taxonomies| ==>
        calls[i] == RegisterTaxonomy(taxonomies[i].name, None, taxonomies[i].args)
      ensures calls[|taxonomies|] == RegisterPostType(postTypeName, postTypeArgs)
      ensures forall i :: 0 <= i < |taxonomies| ==>
        calls[|taxonomies| + 1 + i] == RegisterTaxonomyForObjectType(taxonomies[i].name, postTypeName)
    {
      calls := [];
      var i := 0;
      while i < |taxonomies|
        invariant 0 <= i <= |taxonomies|
        invariant |calls| == i
        invariant forall j :: 0 <= j < i ==> calls[j] == RegisterTaxonomy(taxonomies[j].name, None, taxonomies[j].args)
      {
        calls := calls + [RegisterTaxonomy(taxonomies[i].name, None, taxonomies[i].args)];
        i := i + 1;
      }
      calls := calls + [RegisterPostType(postTypeName, postTypeArgs)];
      i := 0;
      while i < |taxonomies|
        invariant 0 <= i <= |taxonomies|
        invariant |calls| == |taxonomies| + 1 + i
        invariant forall j :: 0 <= j < |taxonomies| ==> calls[j] == RegisterTaxonomy(taxonomies[j].name, None, taxonomies[j].args)
        invariant calls[|taxonomies|] == RegisterPostType(postTypeName, postTypeArgs)
        invariant forall j :: 0 <= j < i ==>
          calls[|taxonomies| + 1 + j] == RegisterTaxonomyForObjectType(taxonomies[j].name, postTypeName)
      {
        calls := calls + [RegisterTaxonomyForObjectType(taxonomies[i].name, postTypeName)];
        i := i + 1;
      }
    }

    /** `registerMetaBoxes()`: one `add_meta_box` per stored box, in table order, on this post type's screen. */
    method RegisterMetaBoxes() returns (calls: seq<HostCall>)
      ensures |calls| == |metaBoxes|
      ensures forall i :: 0 <= i < |metaBoxes| ==>
        calls[i] == HostCall.AddMetaBox(metaBoxes[i].1.id, metaBoxes[i].1.title, Callback.MetaboxContent, postTypeName, metaBoxes[i].1.context)
    {
      calls := [];
      var i := 0;
      while i < |metaBoxes|
        invariant 0 <= i <= |metaBoxes|
        invariant |calls| == i
        invariant forall j :: 0 <= j < i ==>
          calls[j] == HostCall.AddMetaBox(metaBoxes[j].1.id, metaBoxes[j].1.title, Callback.MetaboxContent, postTypeName, metaBoxes[j].1.context)
      {
        var box := metaBoxes[i].1;
        calls := calls + [HostCall.AddMetaBox(box.id, box.title, Callback.MetaboxContent, postTypeName, box.context)];
        i := i + 1;
      }
    }

    /** `metaboxContent($post, $args)`: the box named by the host renders the post's stored values. */
    method MetaboxContent(boxId: string, values: map<string, string>) returns (html: Option<seq<seq<RenderedField>>>)
      ensures boxId !in Keys(metaBoxes) ==> html == None
      ensures boxId in Keys(metaBoxes) ==> html == Some(Get(metaBoxes, boxId).Render(values))
    {
      if boxId in Keys(metaBoxes) {
        var box := Get(metaBoxes, boxId);
        var out := box.Output(values);
        html := Some(out);
      } else {
        html := None;
      }
    }

    /** The meta keys `saveMeta` visits. */
    function SaveNames(): seq<string>
      reads this, Boxes()
    {
      NamesOf(metaBoxes)
    }

    /**
     * `saveMeta($postID)` on the post's meta store. Autosaves, failed nonces and posts of
     * another type change nothing; otherwise every field key of every box holds the
     * submitted value or is deleted, and no other key changes.
     */
    method SaveMeta(doingAutosave: bool, nonceValid: bool, postType: string,
                    submitted: map<string, string>, store: map<string, string>)
      returns (result: map<string, string>)
      ensures doingAutosave || !nonceValid || postType != postTypeName ==> result == store
      ensures !doingAutosave && nonceValid && postType == postTypeName ==>
        && result == ApplySave(store, submitted, SaveNames())
        && (forall n :: n in SaveNames() ==> Lookup(result, n) == Lookup(submitted, n))
        && (forall n :: n !in SaveNames() ==> Lookup(result, n) == Lookup(store, n))
    {
      result := store;
      if doingAutosave {
        return;
      }
      if !nonceValid {
        return;
      }
      if postType == postTypeName {
        var i := 0;
        while i < |metaBoxes|
          invariant 0 <= i <= |metaBoxes|
          invariant result == ApplySave(store, submitted, NamesOf(metaBoxes[..i]))
        {
          var boxId := metaBoxes[i].0;
          var fields := metaBoxes[i].1.GetFields();
          ghost var before := NamesOf(metaBoxes[..i]);
          var j := 0;
          assert before + BoxNames(boxId, fields[..0]) == before;
          while j < |fields|
            invariant 0 <= j <= |fields|
            invariant result == ApplySave(store, submitted, before + BoxNames(boxId, fields[..j]))
            invariant before == NamesOf(metaBoxes[..i])
          {
            var name := FieldName(boxId, fields[j].0);
            SaveNext(store, submitted, before, boxId, fields, j);
            if name in submitted {
              result := result[name := submitted[name]];
            } else {
              result := result - {name};
            }
            j := j + 1;
          }
          assert fields[..j] == fields && fields == metaBoxes[i].1.fields;
          NamesOfNext(metaBoxes, i);
          assert NamesOf(metaBoxes[..i + 1]) == before + BoxNames(boxId, fields);
          i := i + 1;
        }
        assert metaBoxes[..i] == metaBoxes;
        ApplySaveSpec(store, submitted, SaveNames());
      }
    }

    /**
     * The round trip of a field's key: the keys the edit form renders, over all boxes,
     * are exactly the keys `saveMeta` updates or deletes.
     */
    lemma RenderedNamesAreSaveNames()
      requires Valid()
      ensures forall n :: n in SaveNames() <==>
        exists i :: 0 <= i < |metaBoxes| && n in metaBoxes[i].1.RenderedNames()
    {
      forall n
        ensures n in SaveNames() <==> exists i :: 0 <= i < |metaBoxes| && n in metaBoxes[i].1.RenderedNames()
      {
        InNamesOf(metaBoxes, n);
        forall i | 0 <= i < |metaBoxes|
          ensures n in metaBoxes[i].1.RenderedNames() <==> n in BoxNames(metaBoxes[i].0, metaBoxes[i].1.fields)
        {
          assert metaBoxes[i].1 in Boxes();
          metaBoxes[i].1.RenderedNamesAreFieldNames();
        }
      }
    }

    /**
     * After a save of a post of this type, every box's edit form shows for each field
     * exactly what was submitted for it (and an unchecked, empty control when nothing was).
     */
    lemma SavedValuesAreShown(store: map<string, string>, submitted: map<string, string>)
      requires Valid()
      ensures forall i :: 0 <= i < |metaBoxes| ==>
        metaBoxes[i].1.Render(ApplySave(store, submitted, SaveNames())) == metaBoxes[i].1.Render(submitted)
    {
      var saved := ApplySave(store, submitted, SaveNames());
      ApplySaveSpec(store, submitted, SaveNames());
      RenderedNamesAreSaveNames();
      forall i | 0 <= i < |metaBoxes|
        ensures metaBoxes[i].1.Render(saved) == metaBoxes[i].1.Render(submitted)
      {
        metaBoxes[i].1.RenderDependsOnOwnKeys(saved, submitted);
      }
    }
  }
}
