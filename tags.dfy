/**
 * The pure parts of tag reconciliation (client.go): the first-match scan of
 * a tag catalog by exact, case-sensitive name, and the catalog with one new,
 * id-less tag appended.
 */
module Tags {
  import opened Wrappers
  import opened Wire

  /** True when some tag of the catalog is named `name`. */
  ghost predicate Named(tags: seq<ForumTag>, name: string) {
    exists i :: 0 <= i < |tags| && tags[i].name == name
  }

  /** Position of the first tag named `name`, scanning from the front. */
  function FirstMatch(tags: seq<ForumTag>, name: string): (r: Option<nat>)
    ensures r.None? <==> !Named(tags, name)
    ensures r.Some? ==> r.value < |tags| && tags[r.value].name == name
    ensures r.Some? ==> forall j :: 0 <= j < r.value ==> tags[j].name != name
  {
    if tags == [] then None
    else if tags[0].name == name then Some(0)
    else match FirstMatch(tags[1..], name)
      case None => None
      case Some(k) => Some(k + 1)
  }

  /** The id of the first tag named `name`, as the scan loop returns it. */
  function FindTag(tags: seq<ForumTag>, name: string): (r: Option<string>)
    ensures r.None? <==> !Named(tags, name)
    ensures r.Some? ==> exists i :: 0 <= i < |tags| && tags[i] == ForumTag(r.value, name)
                                    && forall j :: 0 <= j < i ==> tags[j].name != name
  {
    match FirstMatch(tags, name)
    case None => None
    case Some(i) => Some(tags[i].id)
  }

  /** The catalog to send when `name` is missing: the old tags, then a new one the remote will give an id. */
  function WithNewTag(tags: seq<ForumTag>, name: string): (r: seq<ForumTag>)
    ensures |r| == |tags| + 1
    ensures forall i :: 0 <= i < |tags| ==> r[i] == tags[i]
    ensures r[|tags|] == ForumTag("", name)
  {
    tags + [ForumTag("", name)]
  }

  /** Scanning a concatenation finds a match in the first part before looking at the second. */
  lemma {:induction false} FirstMatchConcat(a: seq<ForumTag>, b: seq<ForumTag>, name: string)
    ensures FirstMatch(a + b, name) ==
      match FirstMatch(a, name)
      case Some(i) => Some(i)
      case None => match FirstMatch(b, name) case Some(k) => Some(|a| + k) case None => None
  {
    if a == [] {
      assert a + b == b;
    } else {
      assert (a + b)[1..] == a[1..] + b;
      FirstMatchConcat(a[1..], b, name);
    }
  }

  /** When `name` is missing, the only tag it names in the new catalog is the appended one, with an empty id. */
  lemma NewTagIsFirstMatch(tags: seq<ForumTag>, name: string)
    requires !Named(tags, name)
    ensures FirstMatch(WithNewTag(tags, name), name) == Some(|tags|)
    ensures FindTag(WithNewTag(tags, name), name) == Some("")
  {
    FirstMatchConcat(tags, [ForumTag("", name)], name);
  }

  /** Appending a tag never changes the answer for a name that is already present. */
  lemma WithNewTagKeepsExisting(tags: seq<ForumTag>, name: string, other: string)
    requires Named(tags, other)
    ensures FindTag(WithNewTag(tags, name), other) == FindTag(tags, other)
  {
    FirstMatchConcat(tags, [ForumTag("", name)], other);
  }
}
