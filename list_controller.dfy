/**
 * The list controller of the dashboard: it picks the metadata method and its
 * parameters for an entity type, wraps every received object into a model in
 * place, and, when it keeps the list itself, removes in place the Query
 * objects of type 0 and the Flow objects of type 1.
 */
module ListController {
  import opened Wrappers

  // ---------------------------------------------------------------------------
  // Metadata method selection and titles
  // ---------------------------------------------------------------------------

  const MethodNames: map<string, string> := map[
    "Application" := "getApplications",
    "Flow" := "getFlows",
    "Stream" := "getStreams",
    "Query" := "getQueries",
    "Dataset" := "getDatasets"
  ]

  const Plurals: map<string, string> := map[
    "Application" := "Applications",
    "Flow" := "Flows",
    "Stream" := "Streams",
    "Query" := "Queries",
    "Dataset" := "Datasets"
  ]

  /** JavaScript truthiness of the optional application id: absent and '' are falsy. */
  predicate AppIdGiven(appId: Option<string>)
  {
    appId.Some? && appId.value != ""
  }

  /** The metadata call: a method name and its parameter list. */
  datatype MetadataCall = MetadataCall(methodName: string, params: seq<string>)

  /**
   * The method for the entity type (an unknown type reads `undefined`, which
   * string concatenation spells out), with "ByApplication" appended and the
   * application id as sole parameter when one is given.
   */
  function MetadataRequest(entityType: string, appId: Option<string>): MetadataCall
  {
    var base := if entityType in MethodNames then MethodNames[entityType] else "undefined";
    MetadataCall(base + (if AppIdGiven(appId) then ByApplication else ""),
                 if AppIdGiven(appId) then [appId.value] else [])
  }

  const ByApplication: string := "ByApplication"

  /** The entity type whose plain method name this is. */
  function DecodeBaseName(m: string): Option<string>
  {
    if m == "getApplications" then Some("Application")
    else if m == "getFlows" then Some("Flow")
    else if m == "getStreams" then Some("Stream")
    else if m == "getQueries" then Some("Query")
    else if m == "getDatasets" then Some("Dataset")
    else None
  }

  /** Reads the entity type and whether an application id was given back out of a method name. */
  function DecodeMethodName(m: string): Option<(string, bool)>
  {
    var n := |ByApplication|;
    if |m| >= n && m[|m| - n..] == ByApplication then
      (match DecodeBaseName(m[..|m| - n]) case Some(t) => Some((t, true)) case None => None)
    else
      (match DecodeBaseName(m) case Some(t) => Some((t, false)) case None => None)
  }

  lemma BaseNamesDecode(entityType: string)
    requires entityType in MethodNames
    ensures DecodeBaseName(MethodNames[entityType]) == Some(entityType)
    ensures var m := MethodNames[entityType]; !(|m| >= |ByApplication| && m[|m| - |ByApplication|..] == ByApplication)
  {
  }

  /**
   * For a known entity type the call names that type's method, with the
   * "ByApplication" form exactly when an application id is given, and passes
   * `[appId]` then and `[]` otherwise: the method name determines both.
   */
  lemma MetadataRequestRoundTrip(entityType: string, appId: Option<string>)
    requires entityType in MethodNames
    ensures var c := MetadataRequest(entityType, appId);
      && DecodeMethodName(c.methodName) == Some((entityType, AppIdGiven(appId)))
      && (AppIdGiven(appId) ==> c.params == [appId.value])
      && (!AppIdGiven(appId) ==> c.params == [])
  {
    var base := MethodNames[entityType];
    var m := MetadataRequest(entityType, appId).methodName;
    BaseNamesDecode(entityType);
    if AppIdGiven(appId) {
      assert m == base + ByApplication;
      assert m[|m| - |ByApplication|..] == ByApplication;
      assert m[..|m| - |ByApplication|] == base;
    } else {
      assert m == base;
    }
  }

  /** Every method name is "get" followed by the type's plural title. */
  lemma MethodNameIsGetPlural(entityType: string)
    requires entityType in MethodNames
    ensures entityType in Plurals && MethodNames[entityType] == "get" + Plurals[entityType]
  {
  }

  // ---------------------------------------------------------------------------
  // Received objects
  // ---------------------------------------------------------------------------

  /** The attributes of a received object that the controller reads. */
  datatype Raw = Raw(typeCode: Option<int>, attributes: map<string, string>)

  /** A received object before and after being wrapped into the model of its entity type. */
  datatype Obj = Plain(raw: Raw) | Model(kind: string, raw: Raw)

  function Wrap(kind: string, o: Obj): Obj
  {
    Model(kind, o.raw)
  }

  function WrapEach(kind: string, s: seq<Obj>): (r: seq<Obj>)
    ensures |r| == |s|
  {
    seq(|s|, j requires 0 <= j < |s| => Wrap(kind, s[j]))
  }

  /** Query objects of type 0 and Flow objects of type 1 are not listed. */
  predicate Hidden(kind: string, o: Obj)
  {
    (kind == "Query" && o.raw.typeCode == Some(0)) || (kind == "Flow" && o.raw.typeCode == Some(1))
  }

  /** The objects that stay listed, in their original order. */
  function Visible(kind: string, s: seq<Obj>): seq<Obj>
  {
    if |s| == 0 then [] else (if Hidden(kind, s[0]) then [] else [s[0]]) + Visible(kind, s[1..])
  }

  /** Filtering distributes over concatenation, so survivors keep their relative order. */
  lemma {:induction false} VisibleConcat(kind: string, a: seq<Obj>, b: seq<Obj>)
    ensures Visible(kind, a + b) == Visible(kind, a) + Visible(kind, b)
  {
    if |a| == 0 {
      assert a + b == b;
    } else {
      assert (a + b)[0] == a[0];
      assert (a + b)[1..] == a[1..] + b;
      VisibleConcat(kind, a[1..], b);
    }
  }

  /** An object survives exactly when it was received and is not hidden. */
  lemma {:induction false} VisibleMembers(kind: string, s: seq<Obj>, x: Obj)
    ensures x in Visible(kind, s) <==> x in s && !Hidden(kind, x)
  {
    if |s| > 0 {
      VisibleMembers(kind, s[1..], x);
      assert s == [s[0]] + s[1..];
    }
  }

  /** Entity types other than Query and Flow lose nothing. */
  lemma {:induction false} VisibleKeepsOtherTypes(kind: string, s: seq<Obj>)
    requires kind != "Query" && kind != "Flow"
    ensures Visible(kind, s) == s
  {
    if |s| > 0 {
      VisibleKeepsOtherTypes(kind, s[1..]);
      assert s == [s[0]] + s[1..];
    }
  }

  /** Filtering twice removes nothing more. */
  lemma {:induction false} VisibleIdempotent(kind: string, s: seq<Obj>)
    ensures Visible(kind, Visible(kind, s)) == Visible(kind, s)
  {
    if |s| > 0 {
      var head := if Hidden(kind, s[0]) then [] else [s[0]];
      VisibleIdempotent(kind, s[1..]);
      VisibleConcat(kind, head, Visible(kind, s[1..]));
      if !Hidden(kind, s[0]) {
        assert Visible(kind, head) == [s[0]] by { assert head[1..] == []; }
      }
    }
  }

  // ---------------------------------------------------------------------------
  // JavaScript arrays, updated in place
  // ---------------------------------------------------------------------------

  /** A JavaScript array: a sequence of objects that assignment and `splice` change in place. */
  class JsArray {
    var items: seq<Obj>

    constructor (s: seq<Obj>)
      ensures items == s
    {
      items := s;
    }

    /** `a[i] = x`. */
    method Set(i: nat, x: Obj)
      requires i < |items|
      modifies this
      ensures items == old(items)[i := x]
    {
      items := items[i := x];
    }

    /** `a.splice(i, 1)`: removes the element at `i`. */
    method Splice(i: nat)
      requires i < |items|
      modifies this
      ensures items == old(items)[..i] + old(items)[i + 1..]
    {
      items := items[..i] + items[i + 1..];
    }
  }

  /** The backwards loop that replaces every object by its wrapped model. */
  method WrapAll(objects: JsArray, kind: string)
    modifies objects
    ensures objects.items == WrapEach(kind, old(objects.items))
  {
    ghost var s := objects.items;
    var i := |objects.items|;
    while i > 0
      invariant 0 <= i <= |s| && |objects.items| == |s|
      invariant forall j :: 0 <= j < i ==> objects.items[j] == s[j]
      invariant forall j :: i <= j < |s| ==> objects.items[j] == Wrap(kind, s[j])
    {
      i := i - 1;
      objects.Set(i, Wrap(kind, objects.items[i]));
    }
    assert objects.items == WrapEach(kind, s);
  }

  /** The backwards loop that splices out the hidden objects. */
  method RemoveHidden(objects: JsArray, kind: string)
    modifies objects
    ensures objects.items == Visible(kind, old(objects.items))
  {
    ghost var s := objects.items;
    var i := |objects.items|;
    while i > 0
      invariant 0 <= i <= |s|
      invariant objects.items == s[..i] + Visible(kind, s[i..])
    {
      i := i - 1;
      assert objects.items[i] == s[i];
      assert s[i..][1..] == s[i + 1..];
      if Hidden(kind, objects.items[i]) {
        objects.Splice(i);
        assert s[..i + 1][..i] == s[..i];
      } else {
        assert s[..i + 1] == s[..i] + [s[i]];
      }
    }
    assert s[0..] == s;
  }

  // ---------------------------------------------------------------------------
  // The controller
  // ---------------------------------------------------------------------------

  class Controller {
    /** The entity type last asked for. */
    var entityType: Option<string>
    /** The lists kept per entity type. */
    var types: map<string, seq<Obj>>

    constructor ()
      ensures entityType == None && types == map[]
    {
      entityType := None;
      types := map[];
    }

    /** The plural title of the current entity type; `undefined` for an unknown one. */
    function Title(): Option<string>
      reads this
    {
      if entityType.Some? && entityType.value in Plurals then Some(Plurals[entityType.value]) else None
    }

    /**
     * Requests the objects of an entity type and handles the reply. Returns
     * the metadata call made and what the callback receives, if it is called.
     * On an error a callback gets an empty list. On success every object is
     * wrapped; a callback gets them all, otherwise the hidden ones are removed
     * and the rest become the list kept for the type.
     */
    method GetObjects(kind: string, hasCallback: bool, appId: Option<string>, reply: Result<seq<Obj>, string>)
      returns (call: MetadataCall, delivered: Option<seq<Obj>>)
      modifies this
      ensures call == MetadataRequest(kind, appId)
      ensures entityType == Some(kind)
      ensures reply.Failure? ==> types == old(types) && delivered == (if hasCallback then Some([]) else None)
      ensures reply.Success? && hasCallback ==>
        types == old(types) && delivered == Some(WrapEach(kind, reply.value))
      ensures reply.Success? && !hasCallback ==>
        delivered == None && types == old(types)[kind := Visible(kind, WrapEach(kind, reply.value))]
    {
      entityType := Some(kind);
      call := MetadataRequest(kind, appId);
      match reply {
        case Failure(_) =>
          delivered := if hasCallback then Some([]) else None;
        case Success(received) =>
          var objects := new JsArray(received);
          WrapAll(objects, kind);
          if hasCallback {
            delivered := Some(objects.items);
          } else {
            RemoveHidden(objects, kind);
            types := types[kind := objects.items];
            delivered := None;
          }
      }
    }

    /** Forgets every kept list. */
    method Unload()
      modifies this
      ensures types == map[] && entityType == old(entityType)
    {
      types := map[];
    }
  }

  /** The title is the plural of the type, and the method the controller calls is "get" plus that title. */
  lemma TitleMatchesMethod(c: Controller, kind: string)
    requires c.entityType == Some(kind) && kind in MethodNames
    ensures c.Title().Some? && MethodNames[kind] == "get" + c.Title().value
    ensures kind == "Query" ==> c.Title() == Some("Queries")
  {
  }

  /** Wrapping keeps the count and each object's attributes. */
  lemma WrapEachKeeps(kind: string, s: seq<Obj>)
    ensures |WrapEach(kind, s)| == |s|
    ensures forall j :: 0 <= j < |s| ==> WrapEach(kind, s)[j].raw == s[j].raw && WrapEach(kind, s)[j].Model?
  {
  }
}
