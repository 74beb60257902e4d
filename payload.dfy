/**
 * A scraped item's configuration as a generic JSON tree, and the filter the
 * Azure post-pass runs over it (scrapers/azure/azure.go:118-128): jq's
 *   walk(if type == "object" then with_entries(select(.key | test("etag") | not)) else . end)
 * Objects are maps, so nothing is said about the order of keys, which is the
 * jq implementation's business.
 */
module Payload {
  import opened StringUtil

  datatype Json =
    | JNull
    | JBool(b: bool)
    | JNumber(literal: string)
    | JString(s: string)
    | JArray(elems: seq<Json>)
    | JObject(fields: map<string, Json>)

  /** jq's `test("etag")` on a key: a case-sensitive substring match. */
  const EtagPattern: string := "etag"

  predicate IsEtagKey(key: string) {
    HasInfix(key, EtagPattern)
  }

  /**
   * Every key containing "etag" is removed from every object, at every depth;
   * arrays keep their elements, in order, each filtered in turn.
   */
  function WithoutEtags(j: Json): (r: Json)
    ensures j.JObject? <==> r.JObject?
    ensures j.JArray? <==> r.JArray?
    ensures !j.JObject? && !j.JArray? ==> r == j
    ensures j.JArray? ==> |r.elems| == |j.elems|
    ensures j.JArray? ==> forall i :: 0 <= i < |j.elems| ==> r.elems[i] == WithoutEtags(j.elems[i])
    ensures j.JObject? ==> r.fields.Keys == set k | k in j.fields && !IsEtagKey(k)
    ensures j.JObject? ==> forall k :: k in r.fields ==> r.fields[k] == WithoutEtags(j.fields[k])
    decreases j
  {
    match j
    case JArray(elems) =>
      JArray(seq(|elems|, i requires 0 <= i < |elems| => WithoutEtags(elems[i])))
    case JObject(fields) =>
      JObject(map k | k in fields && !IsEtagKey(k) :: WithoutEtags(fields[k]))
    case _ => j
  }

  /** No object anywhere in the tree has a key containing "etag". */
  ghost predicate EtagFree(j: Json)
    decreases j
  {
    match j
    case JArray(elems) => forall i :: 0 <= i < |elems| ==> EtagFree(elems[i])
    case JObject(fields) => forall k :: k in fields ==> !IsEtagKey(k) && EtagFree(fields[k])
    case _ => true
  }

  /** The filter leaves nothing for a second pass: its output is etag-free at every depth. */
  lemma {:induction false} WithoutEtagsIsEtagFree(j: Json)
    ensures EtagFree(WithoutEtags(j))
    decreases j
  {
    match j
    case JArray(elems) =>
      forall i | 0 <= i < |elems| ensures EtagFree(WithoutEtags(elems[i])) {
        WithoutEtagsIsEtagFree(elems[i]);
      }
    case JObject(fields) =>
      forall k | k in fields && !IsEtagKey(k) ensures EtagFree(WithoutEtags(fields[k])) {
        WithoutEtagsIsEtagFree(fields[k]);
      }
    case _ =>
  }

  /** On a tree that has no etag key the filter changes nothing. */
  lemma {:induction false} WithoutEtagsKeepsEtagFree(j: Json)
    requires EtagFree(j)
    ensures WithoutEtags(j) == j
    decreases j
  {
    match j
    case JArray(elems) =>
      forall i | 0 <= i < |elems| ensures WithoutEtags(elems[i]) == elems[i] {
        WithoutEtagsKeepsEtagFree(elems[i]);
      }
      assert WithoutEtags(j).elems == elems;
    case JObject(fields) =>
      forall k | k in fields ensures WithoutEtags(fields[k]) == fields[k] {
        WithoutEtagsKeepsEtagFree(fields[k]);
      }
      assert WithoutEtags(j).fields == fields;
    case _ =>
  }

  /** Running the filter twice is the same as running it once. */
  lemma WithoutEtagsIdempotent(j: Json)
    ensures WithoutEtags(WithoutEtags(j)) == WithoutEtags(j)
  {
    WithoutEtagsIsEtagFree(j);
    WithoutEtagsKeepsEtagFree(WithoutEtags(j));
  }

  /** A key that does not contain "etag" survives with its value filtered; one that does is gone. */
  lemma WithoutEtagsOnKey(fields: map<string, Json>, k: string)
    requires k in fields
    ensures !IsEtagKey(k) ==>
              k in WithoutEtags(JObject(fields)).fields && WithoutEtags(JObject(fields)).fields[k] == WithoutEtags(fields[k])
    ensures IsEtagKey(k) ==> k !in WithoutEtags(JObject(fields)).fields
  {
  }

  /** The filter is case-sensitive: "ETag" and "eTag" are kept, "etag" and "_etag" are removed. */
  lemma EtagMatchIsCaseSensitive()
    ensures !IsEtagKey("ETag") && !IsEtagKey("eTag")
    ensures IsEtagKey("etag") && IsEtagKey("_etag")
  {
    assert OccursAt("etag", EtagPattern, 0);
    assert OccursAt("_etag", EtagPattern, 1);
    forall i ensures !OccursAt("ETag", EtagPattern, i) && !OccursAt("eTag", EtagPattern, i) {
      if i == 0 {
        assert "ETag"[0..4][1] != EtagPattern[1];
        assert "eTag"[0..4][1] != EtagPattern[1];
      }
    }
  }
}
