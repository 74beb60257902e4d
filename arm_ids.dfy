/**
 * Canonical ids and types of Azure Resource Manager resources
 * (scrapers/azure/azure.go:670-700).
 */
module ArmIds {
  import opened Wrappers
  import opened StringUtil

  const ConfigTypePrefix: string := "Azure::"

  /** The package's `deref`: the pointed-to string, or "" for nil. */
  function Deref(p: Option<string>): (r: string)
    ensures p.Some? ==> r == p.value
    ensures p.None? ==> r == ""
  {
    p.GetOr("")
  }

  /** getARMID: the resource id lower-cased, "" for a nil id. */
  function GetArmId(id: Option<string>): (r: string)
    ensures |r| == |Deref(id)|
    ensures forall i :: 0 <= i < |r| ==> r[i] == LowerChar(Deref(id)[i]) && !IsUpper(r[i])
    ensures id.None? ==> r == ""
  {
    ToLower(Deref(id))
  }

  /** A canonical id is its own canonical form. */
  lemma GetArmIdIdempotent(id: Option<string>)
    ensures GetArmId(Some(GetArmId(id))) == GetArmId(id)
  {
    ToLowerIdempotent(Deref(id));
  }

  /** getARMType: "Azure::" followed by the resource type ("" for nil). */
  function GetArmType(t: Option<string>): (r: string)
    ensures ConfigTypePrefix <= r
    ensures TrimPrefix(r, ConfigTypePrefix) == Deref(t)
  {
    TrimPrefixOfConcat(ConfigTypePrefix, Deref(t));
    ConfigTypePrefix + Deref(t)
  }

  /** The marker segment that introduces a resource group in an ARM path. */
  const ResourceGroupsMarker: string := "resourcegroups"

  /**
   * extractResourceGroup: after trimming spaces and one leading "/", the id is
   * split on "/"; when there are at least four segments and the third is
   * exactly "resourcegroups" (case-sensitive) the fourth is the resource
   * group, otherwise there is none ("").
   */
  function ExtractResourceGroup(resourceId: string): (r: string)
    ensures '/' !in r
  {
    var trimmed := TrimPrefix(Trim(resourceId, ' '), "/");
    var segments := Split(trimmed, '/');
    if |segments| < 4 then ""
    else if segments[2] != ResourceGroupsMarker then ""
    else segments[3]
  }

  /**
   * The same case analysis for an id that does not start with "/": the
   * prefix trim leaves it as it is, and its own segments decide.
   */
  lemma ResourceGroupOfUnrootedSegments(segs: seq<string>)
    requires |segs| >= 1 && segs[0] != []
    requires forall i :: 0 <= i < |segs| ==> '/' !in segs[i] && ' ' !in segs[i]
    ensures ExtractResourceGroup(Join(segs, '/')) ==
              if |segs| < 4 || segs[2] != ResourceGroupsMarker then "" else segs[3]
  {
    var id := Join(segs, '/');
    assert TrimPrefix(Trim(id, ' '), "/") == id by {
      JoinAvoids(segs, '/', ' ');
      TrimWithoutChar(id, ' ');
      JoinHead(segs, '/');
      assert segs[0][0] != '/';
      assert !("/" <= id);
    }
    SplitJoin(segs, '/');
  }

  /** Ids that trim to the same string have the same resource group. */
  lemma SameTrimSameGroup(a: string, b: string)
    requires Trim(a, ' ') == Trim(b, ' ')
    ensures ExtractResourceGroup(a) == ExtractResourceGroup(b)
  {
  }

  /**
   * Spaces around an id do not change its resource group: the id is trimmed
   * before it is split.
   */
  lemma ResourceGroupIgnoresOuterSpaces(id: string, pre: string, post: string)
    requires AllChar(pre, ' ') && AllChar(post, ' ')
    requires id == [] || (id[0] != ' ' && id[|id| - 1] != ' ')
    ensures ExtractResourceGroup(pre + id + post) == ExtractResourceGroup(id)
  {
    TrimPadded(' ', pre, id, post);
    TrimPadded(' ', [], id, []);
    assert [] + id + [] == id;
    SameTrimSameGroup(pre + id + post, id);
  }

  /** A rooted id without spaces trims to its body. */
  lemma TrimRootedPath(body: string)
    requires ' ' !in body
    ensures TrimPrefix(Trim("/" + body, ' '), "/") == body
  {
    var s := "/" + body;
    assert s[0] == '/';
    assert s[|s| - 1] == if body == [] then '/' else body[|body| - 1];
    TrimLeftNothing(s, ' ');
    TrimRightNothing(s, ' ');
    TrimPrefixOfConcat("/", body);
  }

  /** After the trim, the segments of "/<body>" are the segments of <body>. */
  lemma SegmentsOfRootedPath(body: string)
    requires ' ' !in body
    ensures ExtractResourceGroup("/" + body) ==
      var segments := Split(body, '/');
      if |segments| < 4 || segments[2] != ResourceGroupsMarker then "" else segments[3]
  {
    TrimRootedPath(body);
  }

  /**
   * The general case analysis: for the id "/" + the segments joined by "/",
   * the group is the fourth segment when there are at least four and the
   * third is exactly "resourcegroups", and "" otherwise.
   */
  lemma ResourceGroupOfSegments(segs: seq<string>)
    requires |segs| >= 1
    requires forall i :: 0 <= i < |segs| ==> '/' !in segs[i] && ' ' !in segs[i]
    ensures ExtractResourceGroup("/" + Join(segs, '/')) ==
              if |segs| < 4 || segs[2] != ResourceGroupsMarker then "" else segs[3]
  {
    JoinAvoids(segs, '/', ' ');
    SegmentsOfRootedPath(Join(segs, '/'));
    SplitJoin(segs, '/');
  }

  /** Three separator-free pieces in front of a tail split off as the first three segments. */
  lemma {:induction false} SplitThreePieces(p0: string, p1: string, p2: string, tail: string)
    requires '/' !in p0 && '/' !in p1 && '/' !in p2
    ensures Split(p0 + "/" + p1 + "/" + p2 + "/" + tail, '/') == [p0, p1, p2] + Split(tail, '/')
  {
    var s2 := p2 + "/" + tail;
    var s1 := p1 + "/" + s2;
    assert p0 + "/" + p1 + "/" + p2 + "/" + tail == p0 + "/" + s1;
    SplitAfterPiece(p2, tail, '/');
    SplitAfterPiece(p1, s2, '/');
    SplitAfterPiece(p0, s1, '/');
  }

  /** A separator-free piece followed by nothing or by "/..." is the first segment. */
  lemma FirstSegment(g: string, rest: string)
    requires '/' !in g
    requires rest == [] || rest[0] == '/'
    ensures Split(g + rest, '/')[0] == g
  {
    if rest == [] {
      assert g + rest == g;
      SplitNoSeparator(g, '/');
    } else {
      assert g + rest == g + "/" + rest[1..];
      SplitAfterPiece(g, rest[1..], '/');
    }
  }

  /** The id "/<a>/<b>/<marker>/<g><rest>" of a resource below a resource group, without its leading "/". */
  function PathBody(a: string, b: string, marker: string, g: string, rest: string): string {
    a + "/" + b + "/" + marker + "/" + (g + rest)
  }

  lemma PathBodyHasNoSpace(a: string, b: string, marker: string, g: string, rest: string)
    requires ' ' !in a && ' ' !in b && ' ' !in marker && ' ' !in g && ' ' !in rest
    ensures ' ' !in PathBody(a, b, marker, g, rest)
  {
  }

  /**
   * On an ARM path "/<a>/<b>/resourcegroups/<g>[/...]" the resource group is <g>,
   * whatever follows it.
   */
  lemma ResourceGroupOfArmPath(a: string, b: string, g: string, rest: string)
    requires '/' !in a && '/' !in b && '/' !in g
    requires ' ' !in a && ' ' !in b && ' ' !in g && ' ' !in rest
    requires rest == [] || rest[0] == '/'
    ensures ExtractResourceGroup("/" + PathBody(a, b, ResourceGroupsMarker, g, rest)) == g
  {
    var body := PathBody(a, b, ResourceGroupsMarker, g, rest);
    var segments := Split(body, '/');
    assert |segments| >= 4 && segments[2] == ResourceGroupsMarker && segments[3] == g by {
      SplitThreePieces(a, b, ResourceGroupsMarker, g + rest);
      FirstSegment(g, rest);
      assert segments == [a, b, ResourceGroupsMarker] + Split(g + rest, '/');
    }
    assert ' ' !in body by {
      PathBodyHasNoSpace(a, b, ResourceGroupsMarker, g, rest);
    }
    SegmentsOfRootedPath(body);
  }

  /** A subscription's own id "/<a>/<b>" has only two segments, so no resource group. */
  lemma SubscriptionPathHasNoResourceGroup(a: string, b: string)
    requires '/' !in a && '/' !in b && ' ' !in a && ' ' !in b
    ensures ExtractResourceGroup("/" + a + "/" + b) == ""
  {
    assert "/" + a + "/" + b == "/" + (a + "/" + b);
    SegmentsOfRootedPath(a + "/" + b);
    SplitAfterPiece(a, b, '/');
    SplitNoSeparator(b, '/');
  }

  /**
   * The marker test is case-sensitive: an id that still has "resourceGroups"
   * in camel case (one that did not pass through GetArmId) yields no group.
   */
  lemma CamelCaseMarkerHasNoResourceGroup(a: string, b: string, g: string, rest: string)
    requires '/' !in a && '/' !in b && '/' !in g
    requires ' ' !in a && ' ' !in b && ' ' !in g && ' ' !in rest
    ensures ExtractResourceGroup("/" + PathBody(a, b, "resourceGroups", g, rest)) == ""
  {
    var body := PathBody(a, b, "resourceGroups", g, rest);
    var segments := Split(body, '/');
    assert |segments| >= 3 && segments[2] != ResourceGroupsMarker by {
      SplitThreePieces(a, b, "resourceGroups", g + rest);
      assert segments == [a, b, "resourceGroups"] + Split(g + rest, '/');
      CamelCaseMarkerDiffers();
    }
    assert ' ' !in body by {
      PathBodyHasNoSpace(a, b, "resourceGroups", g, rest);
    }
    SegmentsOfRootedPath(body);
  }

  /** The camel-case marker Azure writes is not the lower-case one the test expects. */
  lemma CamelCaseMarkerDiffers()
    ensures "resourceGroups" != ResourceGroupsMarker
  {
    assert "resourceGroups"[8] != ResourceGroupsMarker[8];
  }

  /** Lower-casing an ARM path lower-cases each of its parts. */
  lemma ToLowerPathBody(a: string, b: string, marker: string, g: string, rest: string)
    ensures ToLower("/" + PathBody(a, b, marker, g, rest))
         == "/" + PathBody(ToLower(a), ToLower(b), ToLower(marker), ToLower(g), ToLower(rest))
  {
  }

  /**
   * Lower-casing first makes the camel-case form usable: the group of the
   * canonical id of "/<a>/<b>/resourceGroups/<g>[/...]" is <g> lower-cased.
   */
  lemma ResourceGroupOfCanonicalId(a: string, b: string, g: string, rest: string)
    requires '/' !in a && '/' !in b && '/' !in g
    requires ' ' !in a && ' ' !in b && ' ' !in g && ' ' !in rest
    requires rest == [] || rest[0] == '/'
    ensures ExtractResourceGroup(GetArmId(Some("/" + PathBody(a, b, "resourceGroups", g, rest)))) == ToLower(g)
  {
    ToLowerPathBody(a, b, "resourceGroups", g, rest);
    assert ToLower("resourceGroups") == ResourceGroupsMarker;
    ToLowerKeepsPunctuation(a, '/');
    ToLowerKeepsPunctuation(b, '/');
    ToLowerKeepsPunctuation(g, '/');
    ToLowerKeepsPunctuation(a, ' ');
    ToLowerKeepsPunctuation(b, ' ');
    ToLowerKeepsPunctuation(g, ' ');
    ToLowerKeepsPunctuation(rest, ' ');
    ResourceGroupOfArmPath(ToLower(a), ToLower(b), ToLower(g), ToLower(rest));
  }
}
