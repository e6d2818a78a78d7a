/** The object model of cmiskit: `Object`, its variants `Folder` and `Document`,
    the dispatch on `cmis:baseTypeId`, property lookup, the children listing and
    the forms the mutating actions send. An object is a snapshot of a server
    reply; the only state a folder keeps is its cached list of children. */
module Objects {
  import opened Values
  import opened Transport
  import opened FormEncoding

  datatype Kind = FolderKind | DocumentKind

  /** A fetched object: its variant, the reply it was built from (`self.info`,
      absent when the object was built without a truthy reply) and its id. */
  datatype CmisObject = CmisObject(kind: Kind, info: Option<Json>, objectId: Json)

  const FOLDER_TYPE := "cmis:folder"

  /** `info['properties'][name]['value']`. */
  function PropertyOf(info: Json, name: string): (r: Result<Json>)
    ensures r.Ok? <==>
      && info.JObj? && "properties" in info.fields
      && info.fields["properties"].JObj? && name in info.fields["properties"].fields
      && info.fields["properties"].fields[name].JObj? && "value" in info.fields["properties"].fields[name].fields
    ensures r.Ok? ==> r.value == info.fields["properties"].fields[name].fields["value"]
  {
    Index3(info, "properties", name, "value")
  }

  /** `Object.__init__(repo, info, objectId)` for the variant `kind`: a truthy
      `info` is kept and supplies the id, otherwise the id is the one given
      (Python's None, JNull, when none is given). */
  function Construct(kind: Kind, info: Json, objectId: Json): (r: Result<CmisObject>)
    ensures !Truthy(info) ==> r == Ok(CmisObject(kind, None, objectId))
    ensures Truthy(info) ==> (r.Ok? <==> PropertyOf(info, "cmis:objectId").Ok?)
    ensures Truthy(info) && r.Ok? ==>
      r.value == CmisObject(kind, Some(info), PropertyOf(info, "cmis:objectId").value)
    ensures Truthy(info) && r.Err? ==> r.error == PropertyOf(info, "cmis:objectId").error
  {
    if Truthy(info) then
      match PropertyOf(info, "cmis:objectId")
      case Ok(id) => Ok(CmisObject(kind, Some(info), id))
      case Err(e) => Err(e)
    else Ok(CmisObject(kind, None, objectId))
  }

  /** `Object.fromDict`: a Folder exactly when the base type id is the string
      `cmis:folder`, a Document for every other value, unknown types included.
      The id comes from the same reply. */
  function FromDict(info: Json): (r: Result<CmisObject>)
    ensures r.Ok? <==> PropertyOf(info, "cmis:baseTypeId").Ok? && PropertyOf(info, "cmis:objectId").Ok?
    ensures r.Ok? ==>
      && (r.value.kind == FolderKind <==> PropertyOf(info, "cmis:baseTypeId").value == JStr(FOLDER_TYPE))
      && r.value.info == Some(info)
      && r.value.objectId == PropertyOf(info, "cmis:objectId").value
    ensures PropertyOf(info, "cmis:baseTypeId").Err? ==> r == Err(PropertyOf(info, "cmis:baseTypeId").error)
    ensures PropertyOf(info, "cmis:baseTypeId").Ok? && PropertyOf(info, "cmis:objectId").Err? ==>
      r == Err(PropertyOf(info, "cmis:objectId").error)
  {
    match PropertyOf(info, "cmis:baseTypeId")
    case Err(e) => Err(e)
    case Ok(baseTypeId) =>
      Construct(if baseTypeId == JStr(FOLDER_TYPE) then FolderKind else DocumentKind, info, JNull)
  }

  /** `getPropertyValue(key)`: an object built without a reply has no `info`
      attribute. */
  function GetPropertyValue(o: CmisObject, key: string): (r: Result<Json>)
    ensures o.info.None? ==> r == Err(AttributeError("info"))
    ensures o.info.Some? ==> r == PropertyOf(o.info.value, key)
  {
    match o.info
    case None => Err(AttributeError("info"))
    case Some(info) => PropertyOf(info, key)
  }

  /** The `name` attribute. */
  function Name(o: CmisObject): (r: Result<Json>)
    ensures o.info.None? ==> r == Err(AttributeError("info"))
    ensures o.info.Some? ==> r == PropertyOf(o.info.value, "cmis:name")
  {
    GetPropertyValue(o, "cmis:name")
  }

  /** `o[key]`: `name` and `cmis:name` both read the name; every other key is a
      bare KeyError, whatever properties the object has. */
  function GetItem(o: CmisObject, key: string): (r: Result<Json>)
    ensures key == "name" || key == "cmis:name" ==> r == Name(o)
    ensures key != "name" && key != "cmis:name" ==> r == Err(BareKeyError)
  {
    if key == "name" || key == "cmis:name" then Name(o) else Err(BareKeyError)
  }

  /** An object fetched from a reply reports, under both item keys and as its
      `name`, the `cmis:name` value of that reply. */
  lemma NameFromReply(info: Json, o: CmisObject)
    requires FromDict(info) == Ok(o)
    ensures GetItem(o, "name") == GetItem(o, "cmis:name") == Name(o) == PropertyOf(info, "cmis:name")
  {
  }

  /** The reply a server sends for an object with the property values
      `values`: `{"properties": {name: {"value": v}, ...}}`. */
  function Reply(values: map<string, Json>): (r: Json)
  {
    JObj(map["properties" := JObj(map name | name in values :: JObj(map["value" := values[name]]))])
  }

  /** Reading a reply back: the object has the variant its base type id names,
      the id the reply carries, and every property value the reply was built
      from; a name the reply does not carry is a KeyError. */
  lemma FromReply(values: map<string, Json>, name: string)
    requires "cmis:baseTypeId" in values && "cmis:objectId" in values
    ensures FromDict(Reply(values)).Ok?
    ensures var o := FromDict(Reply(values)).value;
      && (o.kind == FolderKind <==> values["cmis:baseTypeId"] == JStr(FOLDER_TYPE))
      && o.objectId == values["cmis:objectId"]
      && GetPropertyValue(o, name) == if name in values then Ok(values[name]) else Err(KeyError(name))
  {
    var props := map name | name in values :: JObj(map["value" := values[name]]);
    assert Reply(values).fields["properties"] == JObj(props);
    assert props["cmis:baseTypeId"].fields["value"] == values["cmis:baseTypeId"];
    assert props["cmis:objectId"].fields["value"] == values["cmis:objectId"];
    if name in values {
      assert props[name].fields["value"] == values[name];
    }
  }

  /** What `for o in objects: o['object']` reaches: the entries of a list. An
      empty str or dict gives no entries; a non-empty one gives a str entry,
      which cannot be indexed by a string; any other value is not iterable. */
  function ChildEntries(objects: Json): (r: Result<seq<Json>>)
    ensures r.Ok? <==> objects.JArr? || ((objects.JStr? || objects.JObj?) && !Truthy(objects))
    ensures r.Ok? && objects.JArr? ==> r.value == objects.items
    ensures r.Ok? && !objects.JArr? ==> r.value == []
    ensures r.Err? ==> r.error == TypeError
  {
    match objects
    case JArr(xs) => Ok(xs)
    case JStr(s) => if s == "" then Ok([]) else Err(TypeError)
    case JObj(m) => if m == map[] then Ok([]) else Err(TypeError)
    case _ => Err(TypeError)
  }

  /** One child: `Object.fromDict(repo, o['object'])`. */
  function Child(entry: Json): (r: Result<CmisObject>)
    ensures !entry.JObj? ==> r == Err(TypeError)
    ensures entry.JObj? && "object" !in entry.fields ==> r == Err(KeyError("object"))
    ensures entry.JObj? && "object" in entry.fields ==> r == FromDict(entry.fields["object"])
  {
    match Index(entry, "object")
    case Err(e) => Err(e)
    case Ok(o) => FromDict(o)
  }

  /** The children of the entries, in order; the first entry that cannot be
      turned into an object decides the error. */
  function ConvertAll(entries: seq<Json>): (r: Result<seq<CmisObject>>)
    ensures r.Ok? <==> forall i :: 0 <= i < |entries| ==> Child(entries[i]).Ok?
    ensures r.Ok? ==>
      && |r.value| == |entries|
      && forall i :: 0 <= i < |entries| ==> Child(entries[i]) == Ok(r.value[i])
    ensures r.Err? ==>
      exists i :: 0 <= i < |entries| && Child(entries[i]) == Err(r.error) &&
        (forall j :: 0 <= j < i ==> Child(entries[j]).Ok?)
  {
    if |entries| == 0 then Ok([])
    else
      var n := |entries| - 1;
      assert forall i :: 0 <= i < n ==> entries[..n][i] == entries[i];
      match ConvertAll(entries[..n])
      case Err(e) => Err(e)
      case Ok(xs) =>
        match Child(entries[n])
        case Err(e) => Err(e)
        case Ok(x) => Ok(xs + [x])
  }

  /** Once a prefix of the entries fails, the whole listing fails the same way. */
  lemma {:induction false} ConvertAllStopsAtFirstError(entries: seq<Json>, i: nat)
    requires i <= |entries|
    requires ConvertAll(entries[..i]).Err?
    ensures ConvertAll(entries) == ConvertAll(entries[..i])
    decreases |entries|
  {
    if i < |entries| {
      var front := entries[..|entries| - 1];
      assert front[..i] == entries[..i];
      ConvertAllStopsAtFirstError(front, i);
      assert ConvertAll(front).Err?;
    } else {
      assert entries[..i] == entries;
    }
  }

  /** `Folder.getChildren`'s result for the reply `listing` to the children
      request. */
  function ChildrenOf(listing: Json): (r: Result<seq<CmisObject>>)
    ensures !listing.JObj? ==> r == Err(TypeError)
    ensures listing.JObj? && "objects" !in listing.fields ==> r == Err(KeyError("objects"))
    ensures listing.JObj? && "objects" in listing.fields ==>
      var entries := ChildEntries(listing.fields["objects"]);
      && (entries.Err? ==> r == Err(TypeError))
      && (entries.Ok? ==> r == ConvertAll(entries.value))
  {
    match Index(listing, "objects")
    case Err(e) => Err(e)
    case Ok(objects) =>
      match ChildEntries(objects)
      case Err(e) => Err(e)
      case Ok(entries) => ConvertAll(entries)
  }

  /** The listing has one child per entry, in the listing's order, each
      dispatched by its own base type id; an empty list is an empty listing. */
  lemma ChildrenInOrder(entries: seq<Json>)
    ensures ChildrenOf(JObj(map["objects" := JArr([])])) == Ok([])
    ensures ChildrenOf(JObj(map["objects" := JArr(entries)])).Ok? ==>
      var children := ChildrenOf(JObj(map["objects" := JArr(entries)])).value;
      && |children| == |entries|
      && forall i :: 0 <= i < |entries| ==>
        && entries[i].JObj? && "object" in entries[i].fields
        && FromDict(entries[i].fields["object"]) == Ok(children[i])
        && (children[i].kind == FolderKind <==>
            PropertyOf(entries[i].fields["object"], "cmis:baseTypeId") == Ok(JStr(FOLDER_TYPE)))
  {
  }

  /** The arguments every action sends besides the properties. */
  function ActionArgs(objectId: Json, action: string): (r: map<string, Json>)
  {
    map["objectId" := objectId, "cmisaction" := JStr(action)]
  }

  /** The action arguments never take the shape of a generated property key, so
      the server reads the action, the target id and every property back. */
  lemma ActionFormDecodes(order: seq<string>, properties: map<string, Json>, objectId: Json, action: string)
    requires Enumerates(order, properties.Keys)
    ensures var form := IndexedProperties(order, properties) + ActionArgs(objectId, action);
      && form["objectId"] == objectId
      && form["cmisaction"] == JStr(action)
      && DecodeProperties(form, |order|) == Some(properties)
  {
    forall i: nat
      ensures IdKey(i) !in ActionArgs(objectId, action) && ValueKey(i) !in ActionArgs(objectId, action)
    {
      assert |IdKey(i)| > 10 && |ValueKey(i)| > 10;
    }
    EncodeDecode(order, properties, ActionArgs(objectId, action));
  }

  /** With no properties, `Object._post` numbers nothing. */
  lemma NoPropertiesNoEntries(order: seq<string>)
    requires Enumerates(order, {})
    ensures order == []
  {
    EnumerationSize(order, {});
  }

  /** `Object.delete`: the form posted for this object. */
  method Delete(o: CmisObject) returns (form: map<string, Json>)
    ensures form == map["objectId" := o.objectId, "cmisaction" := JStr("delete")]
  {
    ghost var order;
    form, order := EncodeForm(map[], ActionArgs(o.objectId, "delete"));
    NoPropertiesNoEntries(order);
  }

  /** `Object.deleteTree`: the form posted for this object and its descendants. */
  method DeleteTree(o: CmisObject) returns (form: map<string, Json>)
    ensures form == map["objectId" := o.objectId, "cmisaction" := JStr("deleteTree")]
  {
    ghost var order;
    form, order := EncodeForm(map[], ActionArgs(o.objectId, "deleteTree"));
    NoPropertiesNoEntries(order);
  }

  /** A Folder: a folder snapshot plus the `children` list the last listing
      cached on it. */
  class Folder {
    const snapshot: CmisObject
    var children: Option<seq<CmisObject>>

    constructor (snapshot: CmisObject)
      requires snapshot.kind == FolderKind
      ensures this.snapshot == snapshot && children == None
    {
      this.snapshot := snapshot;
      children := None;
    }

    /** `getChildren`: lists the children of the reply `listing`, replacing the
        cached list on success and leaving it as it was when the listing fails. */
    method GetChildren(listing: Decoded) returns (r: Result<seq<CmisObject>>)
      modifies this
      ensures r == ChildrenOf(AsValue(listing))
      ensures children == if r.Ok? then Some(r.value) else old(children)
    {
      var objects := Index(AsValue(listing), "objects");
      if objects.Err? {
        return Err(objects.error);
      }
      var entries := ChildEntries(objects.value);
      if entries.Err? {
        return Err(entries.error);
      }
      var es := entries.value;
      var list: seq<CmisObject> := [];
      var i := 0;
      while i < |es|
        invariant 0 <= i <= |es|
        invariant ConvertAll(es[..i]) == Ok(list)
      {
        var child := Child(es[i]);
        assert es[..i + 1][..i] == es[..i];
        if child.Err? {
          ConvertAllStopsAtFirstError(es, i + 1);
          return Err(child.error);
        }
        list := list + [child.value];
        i := i + 1;
      }
      assert es[..i] == es;
      children := Some(list);
      r := Ok(list);
    }

    /** The `children` attribute: the cached list when there is one (no request
        is made), otherwise a fresh listing. */
    method Children(listing: Decoded) returns (r: Result<seq<CmisObject>>)
      modifies this
      ensures old(children).Some? ==> r == Ok(old(children).value) && children == old(children)
      ensures old(children).None? ==> r == ChildrenOf(AsValue(listing))
      ensures old(children).None? ==> children == if r.Ok? then Some(r.value) else None
    {
      if children.Some? {
        return Ok(children.value);
      }
      r := GetChildren(listing);
    }

    /** `createFolder(properties)`: the form posted (the properties numbered in
        some iteration order, the parent's id, the action) and the Folder built
        from the server's `reply`, without looking at its base type. */
    method CreateFolder(properties: map<string, Json>, reply: Decoded)
      returns (form: map<string, Json>, ghost order: seq<string>, created: Result<CmisObject>)
      ensures Enumerates(order, properties.Keys)
      ensures form == IndexedProperties(order, properties) + ActionArgs(snapshot.objectId, "createFolder")
      ensures created == Construct(FolderKind, AsValue(reply), JNull)
      ensures created.Ok? ==> created.value.kind == FolderKind
    {
      form, order := EncodeForm(properties, ActionArgs(snapshot.objectId, "createFolder"));
      created := Construct(FolderKind, AsValue(reply), JNull);
    }

    /** `createDocument(properties)`: as `createFolder`, with a Document built
        from the reply. */
    method CreateDocument(properties: map<string, Json>, reply: Decoded)
      returns (form: map<string, Json>, ghost order: seq<string>, created: Result<CmisObject>)
      ensures Enumerates(order, properties.Keys)
      ensures form == IndexedProperties(order, properties) + ActionArgs(snapshot.objectId, "createDocument")
      ensures created == Construct(DocumentKind, AsValue(reply), JNull)
      ensures created.Ok? ==> created.value.kind == DocumentKind
    {
      form, order := EncodeForm(properties, ActionArgs(snapshot.objectId, "createDocument"));
      created := Construct(DocumentKind, AsValue(reply), JNull);
    }
  }

  /** A 204 reply to a creation gives an object without `info` whose id is None;
      reading its name then fails. */
  lemma CreatedFromNoContent(kind: Kind)
    ensures Construct(kind, AsValue(NoContent), JNull) == Ok(CmisObject(kind, None, JNull))
    ensures Name(CmisObject(kind, None, JNull)) == Err(AttributeError("info"))
  {
  }
}
