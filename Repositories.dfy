/** `Client` and `Repository`: the repository table `Client.connect` builds from
    the discovery reply, and the root folder a Repository resolves and caches.
    Replies from the server are parameters of the methods that would request
    them. */
module Repositories {
  import opened Values
  import opened Transport
  import opened QueryString
  import opened Objects

  /** The server-compatibility switch of `Repository._get`. */
  const SELECTOR_HACK := true

  /** The two lookups of `Repository.__init__`; a descriptor without them
      cannot become a Repository. */
  function DescriptorUrls(descriptor: Json): (r: Result<(Json, Json)>)
    ensures r.Ok? <==>
      descriptor.JObj? && "repositoryUrl" in descriptor.fields && "rootFolderUrl" in descriptor.fields
    ensures r.Ok? ==>
      r.value == (descriptor.fields["repositoryUrl"], descriptor.fields["rootFolderUrl"])
    ensures !descriptor.JObj? ==> r == Err(TypeError)
  {
    match Index(descriptor, "repositoryUrl")
    case Err(e) => Err(e)
    case Ok(url) =>
      match Index(descriptor, "rootFolderUrl")
      case Err(e) => Err(e)
      case Ok(root) => Ok((url, root))
  }

  /** Every descriptor of the discovery reply can become a Repository. */
  ghost predicate AllDescriptorsUsable(discovery: map<string, Json>)
  {
    forall k :: k in discovery ==> DescriptorUrls(discovery[k]).Ok?
  }

  /** Each entry of `table` is a Repository of `client` for the descriptor of
      the same name in `discovery`, holding that descriptor's two URLs, with no
      root folder resolved yet. */
  ghost predicate Describes(table: map<string, Repository>, client: Client, discovery: map<string, Json>)
    reads table.Values
  {
    forall k :: k in table ==>
      && k in discovery
      && table[k].client == client
      && table[k].info == discovery[k]
      && DescriptorUrls(discovery[k]) == Ok((table[k].url, table[k].root))
      && table[k].rootFolder == None
  }

  /** No two names of `table` share one Repository. */
  ghost predicate Injective(table: map<string, Repository>)
  {
    forall j, k :: j in table && k in table && j != k ==> table[j] != table[k]
  }

  class Repository {
    const client: Client
    const info: Json
    const url: Json
    const root: Json
    var rootFolder: Option<CmisObject>

    constructor (client: Client, info: Json)
      requires DescriptorUrls(info).Ok?
      ensures this.client == client && this.info == info
      ensures (url, root) == DescriptorUrls(info).value
      ensures rootFolder == None
    {
      this.client := client;
      this.info := info;
      var urls := DescriptorUrls(info).value;
      url := urls.0;
      root := urls.1;
      rootFolder := None;
    }

    /** The `rootFolderId` attribute, read from the descriptor on each access. */
    function RootFolderId(): (r: Result<Json>)
      ensures r.Ok? <==> info.JObj? && "rootFolderId" in info.fields
      ensures r.Ok? ==> r.value == info.fields["rootFolderId"]
    {
      Index(info, "rootFolderId")
    }

    /** The URL `getObject(objectId)` requests: the root folder URL with the
        object id and the selector `object`, under the selector rename. A root
        URL that is not a string cannot be concatenated with `?`. */
    method ObjectUrl(objectId: string) returns (r: Result<string>, ghost order: seq<string>)
      ensures !root.JStr? ==> r == Err(TypeError)
      ensures root.JStr? ==>
        && r.Ok?
        && Enumerates(order, {"objectId", SELECTOR_ALIAS})
        && r.value == root.s + "?" + Join(Pairs(order, map["objectId" := objectId, SELECTOR_ALIAS := "object"]), "&")
    {
      order := [];
      if !root.JStr? {
        return Err(TypeError), order;
      }
      r, order := RequestUrl(root.s, ObjectArgs(objectId), SELECTOR_HACK);
    }

    /** `getRootFolder`: `getObject(self.rootFolderId)`, whose `reply` from the
        server is a parameter. `request` is the URL that `getObject` sends for a
        string id; building it fails with a TypeError when the root folder URL
        is not a string. The result replaces the cached root folder; a failure
        leaves the cache as it was. */
    method GetRootFolder(reply: Decoded) returns (r: Result<CmisObject>, request: Option<string>, ghost order: seq<string>)
      modifies this
      ensures RootFolderId().Err? ==> r == Err(RootFolderId().error) && request == None
      ensures RootFolderId().Ok? && !root.JStr? ==> r == Err(TypeError) && request == None
      ensures RootFolderId().Ok? && root.JStr? ==> r == FromDict(AsValue(reply))
      ensures request.Some? <==> RootFolderId().Ok? && RootFolderId().value.JStr? && root.JStr?
      ensures request.Some? ==>
        && Enumerates(order, {"objectId", SELECTOR_ALIAS})
        && request.value == root.s + "?" + Join(Pairs(order, map["objectId" := RootFolderId().value.s, SELECTOR_ALIAS := "object"]), "&")
      ensures rootFolder == if r.Ok? then Some(r.value) else old(rootFolder)
    {
      order := [];
      request := None;
      var id := RootFolderId();
      if id.Err? {
        return Err(id.error), request, order;
      }
      if !root.JStr? {
        return Err(TypeError), request, order;
      }
      if id.value.JStr? {
        var url;
        url, order := ObjectUrl(id.value.s);
        request := Some(url.value);
      }
      r := FromDict(AsValue(reply));
      if r.Ok? {
        rootFolder := Some(r.value);
      }
    }

    /** The `rootFolder` attribute: the cached folder once one has been
        resolved (no request is made), otherwise `getRootFolder`. */
    method RootFolder(reply: Decoded) returns (r: Result<CmisObject>, request: Option<string>, ghost order: seq<string>)
      modifies this
      ensures old(rootFolder).Some? ==> r == Ok(old(rootFolder).value) && rootFolder == old(rootFolder) && request == None
      ensures old(rootFolder).None? && RootFolderId().Err? ==> r == Err(RootFolderId().error) && request == None
      ensures old(rootFolder).None? && RootFolderId().Ok? && !root.JStr? ==> r == Err(TypeError) && request == None
      ensures old(rootFolder).None? && RootFolderId().Ok? && root.JStr? ==> r == FromDict(AsValue(reply))
      ensures old(rootFolder).None? ==>
        (request.Some? <==> RootFolderId().Ok? && RootFolderId().value.JStr? && root.JStr?)
      ensures old(rootFolder).None? && request.Some? ==>
        && Enumerates(order, {"objectId", SELECTOR_ALIAS})
        && request.value == root.s + "?" + Join(Pairs(order, map["objectId" := RootFolderId().value.s, SELECTOR_ALIAS := "object"]), "&")
      ensures old(rootFolder).None? ==> rootFolder == if r.Ok? then Some(r.value) else None
    {
      if rootFolder.Some? {
        return Ok(rootFolder.value), None, [];
      }
      r, request, order := GetRootFolder(reply);
    }
  }

  class Client {
    const url: string
    const login: string
    const password: string
    var info: Option<Json>
    var repositories: map<string, Repository>
    var defaultRepository: Option<Repository>

    /** The fields `Client.__init__` sets before it calls `connect`. */
    constructor (url: string, login: string, password: string)
      ensures this.url == url && this.login == login && this.password == password
      ensures info == None && repositories == map[] && defaultRepository == None
    {
      this.url := url;
      this.login := login;
      this.password := password;
      info := None;
      repositories := map[];
      defaultRepository := None;
    }

    /** `connect`: `discovery` is the reply to the GET on the client's URL. The
        table is emptied, then gets one new Repository per discovery entry; the
        default repository is the entry named `default`. A reply that is not a
        dict has no `items`; a malformed descriptor stops the loop with the
        entries made so far; a missing `default` is a KeyError after the table
        is complete. */
    method Connect(discovery: Decoded) returns (r: Outcome)
      modifies this
      ensures info == Some(AsValue(discovery))
      ensures !AsValue(discovery).JObj? ==> r == Fail(AttributeError("items")) && repositories == map[]
      ensures AsValue(discovery).JObj? ==>
        var m := AsValue(discovery).fields;
        && repositories.Keys <= m.Keys
        && (AllDescriptorsUsable(m) ==> repositories.Keys == m.Keys)
        && (r.Pass? <==> AllDescriptorsUsable(m) && "default" in m)
        && (AllDescriptorsUsable(m) && "default" !in m ==> r == Fail(KeyError("default")))
        && (!AllDescriptorsUsable(m) ==> exists k :: k in m && DescriptorUrls(m[k]) == Err(r.error))
        && Describes(repositories, this, m)
      ensures forall k :: k in repositories ==> fresh(repositories[k])
      ensures Injective(repositories)
      ensures r.Pass? ==> defaultRepository == Some(repositories["default"])
      ensures r.Fail? ==> defaultRepository == old(defaultRepository)
    {
      var value := AsValue(discovery);
      info := Some(value);
      repositories := map[];
      if !value.JObj? {
        return Fail(AttributeError("items"));
      }
      var failure;
      repositories, failure := MakeRepositories(value.fields);
      if failure.Some? {
        return Fail(failure.value);
      }
      if "default" !in repositories {
        return Fail(KeyError("default"));
      }
      defaultRepository := Some(repositories["default"]);
      r := Pass;
    }

    /** The loop of `connect`: one new Repository per discovery entry, visited
        in unspecified order, until a descriptor cannot become one; `failure` is
        that descriptor's error, and `table` holds the entries made before it. */
    method MakeRepositories(discovery: map<string, Json>)
      returns (table: map<string, Repository>, failure: Option<Error>)
      ensures table.Keys <= discovery.Keys
      ensures failure.None? <==> AllDescriptorsUsable(discovery)
      ensures failure.None? ==> table.Keys == discovery.Keys
      ensures failure.Some? ==> exists k :: k in discovery && DescriptorUrls(discovery[k]) == Err(failure.value)
      ensures Describes(table, this, discovery)
      ensures forall k :: k in table ==> fresh(table[k])
      ensures Injective(table)
    {
      table := map[];
      var rest := discovery.Keys;
      while rest != {}
        invariant rest <= discovery.Keys
        invariant table.Keys == discovery.Keys - rest
        invariant Describes(table, this, discovery)
        invariant forall k :: k in table ==> fresh(table[k])
        invariant Injective(table)
        invariant forall k :: k in discovery.Keys - rest ==> DescriptorUrls(discovery[k]).Ok?
        decreases rest
      {
        var k :| k in rest;
        var urls := DescriptorUrls(discovery[k]);
        if urls.Err? {
          return table, Some(urls.error);
        }
        var repository := new Repository(this, discovery[k]);
        table := table[k := repository];
        rest := rest - {k};
      }
      failure := None;
    }
  }
}
