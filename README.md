# cmiskit, modelled in Dafny

cmiskit is a thin Python client for a CMIS repository reached over the browser
binding. A `Client` fetches the repository table from a discovery URL. A
`Repository` resolves its root folder and fetches objects by id. An `Object` is
a `Folder` or a `Document`, chosen by its `cmis:baseTypeId`. It exposes its
properties. A folder lists its children and creates folders and documents, and
any object can be deleted. Each of these is one HTTP GET or POST.

This project models the deterministic logic around those requests:

- how a response is turned into a Python value (`Transport`);
- the query string of a GET with the `cmisselector` to `selector` rename
  (`QueryString`);
- the form of a POST, with its indexed `propertyId[i]` / `propertyValue[i]`
  entries (`FormEncoding`);
- the Folder/Document dispatch, identity, property access and the children
  listing (`Objects`);
- the repository table and the cached root folder (`Repositories`).

The Python values the client handles are one `Json` datatype (`Values`).
Python's `None` is `JNull` and a `str` is `JStr`, because the client treats
them the same way: a 204 reply (None) or a text reply (str) passed to
`Object.__init__` behaves exactly as in Python. Dictionary iteration order is
unspecified in Python 2. The loops that visit a dict choose the next key with
`:|`. The request and form loops return the visiting order as a ghost `order`. Contracts only say
that `order` lists every key once (`Enumerates`), never which order it is.

Server replies are method parameters. The HTTP library, `json.loads` and
`form_encode` are outside the model. `json.loads` becomes a parameter `parse`
that answers `None` where it would raise.

Behaviour worth noting:

- A missing property is a `KeyError`, and so is a missing `default` repository.
  There is no dedicated "not found" error.
- The id of an object fetched by `getObject` comes from the reply, not from the
  argument.
- `createFolder` returns a Folder and `createDocument` returns a Document
  without reading the reply's base type.
- An explicit `getRootFolder` or `getChildren` call always re-reads and
  overwrites the cache. Only the attribute form (`rootFolder`, `children`)
  reuses it.

## Model

| member | source | states |
|---|---|---|
| `Values.Truthy` | cmiskit.py:89 | a value is false exactly when it is None, False, zero, or an empty string, list or dict |
| `Values.Index` | cmiskit.py:120 | Python `v[key]`: succeeds exactly when `v` is a dict holding `key` and yields its value; a dict without the key is `KeyError(key)`, any other value a `TypeError` |
| `Values.Index3` | cmiskit.py:91 | the chained lookup `v[k1][k2][k3]` succeeds exactly when each level is a dict holding the next key, and then yields the innermost value |
| `Values.EnumerationSize` | cmiskit.py:136 | an iteration order of a dict visits as many keys as the dict has |
| `Transport.StartsWith` | cmiskit.py:36 | `s.startswith(prefix)` holds exactly when `s` is `prefix` followed by some rest |
| `Transport.ReadBody` | cmiskit.py:36-39 | a missing Content-Type fails with the AttributeError of calling `startswith` on None; a type starting with `application/json` yields the parsed body (ValueError when parsing fails); every other type yields the body text unchanged; never "no content" |
| `Transport.Get` | cmiskit.py:31-39 | a GET result is never "no content", and a text result is the body verbatim |
| `Transport.Post` | cmiskit.py:41-51 | a POST yields "no content" exactly when the status is 204; for every other status it is the GET classification of the same response |
| `Transport.GetIgnoresStatus` | cmiskit.py:35-39 | the status of a GET response never changes its classification |
| `Transport.NoContentOnlyForPost` | cmiskit.py:36-39 | a 204 reply is "no content" for a POST even without a Content-Type header, but never "no content" for a GET, where a missing header fails on `startswith` |
| `Transport.AsValue` | cmiskit.py:46-51 | "no content" is Python None, a JSON reply its document, a text reply a str |
| `QueryString.Join` | cmiskit.py:82 | joining no strings gives the empty string; joining one gives that string |
| `QueryString.SplitJoin` | cmiskit.py:82 | splitting the `&`-join of pieces that contain no `&` gives the pieces back |
| `QueryString.Pairs` | cmiskit.py:82 | one `k=v` string per visited key, in visiting order, with the key and value unescaped |
| `QueryString.RewriteSelector` | cmiskit.py:79-81 | with the switch on, `selector` gets the value of `cmisselector`, `cmisselector` disappears and all other parameters keep their values; a missing `cmisselector` is `KeyError('cmisselector')`; with the switch off the parameters pass unchanged |
| `QueryString.RequestUrl` | cmiskit.py:78-83 | the request URL is `url + "?"` followed by the `&`-join of exactly one `k=v` per parameter sent, each key visited once in some order; it fails with the KeyError exactly when the rewrite does |
| `QueryString.QueryRecoversPairs` | cmiskit.py:82-83 | when no key or value contains `&`, the query splits back into exactly one `k=v` per parameter sent |
| `QueryString.ObjectArgs` | cmiskit.py:75 | `getObject` sends `objectId` and, after the rename, `selector=object` and no `cmisselector` |
| `FormEncoding.Decimal` | cmiskit.py:137-138 | `'%d' % i` is a non-empty string |
| `FormEncoding.DecimalDigits` | cmiskit.py:137-138 | `'%d' % i` is made of decimal digits and starts with `0` only for 0 |
| `FormEncoding.IdKey` | cmiskit.py:137 | the key `'propertyId[%d]' % i`, the prefix followed by the index's digits and a closing bracket |
| `FormEncoding.ValueKey` | cmiskit.py:138 | the key `'propertyValue[%d]' % i`, built the same way |
| `FormEncoding.KeysNameTheirIndex` | cmiskit.py:137-138 | each generated key is its prefix, digits that read back as its index, and `]` |
| `FormEncoding.DecimalRoundTrip` | cmiskit.py:137-138 | the decimal index written by `'%d'` reads back as the same index |
| `FormEncoding.GeneratedKeysDistinct` | cmiskit.py:137-138 | a `propertyId[i]` key never equals a `propertyValue[j]` key, and each kind is distinct for distinct indices |
| `FormEncoding.IndexedProperties` | cmiskit.py:134-139 | the entries the first loop writes: for the properties visited in the order `order`, the i-th one's name under `propertyId[i]` and its value under `propertyValue[i]` |
| `FormEncoding.IndexedPropertiesKeys` | cmiskit.py:134-139 | every generated key is `propertyId[i]` or `propertyValue[i]` for some i below the number of properties |
| `FormEncoding.IndexedPropertiesValues` | cmiskit.py:136-139 | for each i below the number of properties, `propertyId[i]` holds the i-th visited property's name and `propertyValue[i]` that same property's value |
| `FormEncoding.IndexedPropertiesContiguous` | cmiskit.py:135-139 | the indices are contiguous from 0: `propertyId[i]` and `propertyValue[i]` exist exactly for i below the number of properties |
| `FormEncoding.EncodeForm` | cmiskit.py:133-141 | the form is the numbered properties, visited in some order that lists each property once, with every keyword argument copied over them |
| `FormEncoding.FormContents` | cmiskit.py:134-141 | every argument key maps to its argument value, even when it collides with a generated key; every generated key the arguments leave alone keeps its property's name or value; no other key is present |
| `FormEncoding.EncodeDecode` | cmiskit.py:133-141 | reading the numbered entries back gives exactly the property map, whatever the numbering order, when no argument looks like a generated key |
| `Objects.PropertyOf` | cmiskit.py:120 | `info['properties'][name]['value']` exists exactly when each level is a dict holding the next key, and is the innermost value |
| `Objects.Construct` | cmiskit.py:87-93 | with a truthy `info` the object keeps it and its id is `info['properties']['cmis:objectId']['value']` (a failing lookup is the error); otherwise it has no info and exactly the supplied id |
| `Objects.FromDict` | cmiskit.py:95-101 | succeeds exactly when the reply carries a base type id and an object id; the result is a Folder exactly when the base type id is `cmis:folder` and a Document for every other value; it keeps the reply and its object id |
| `Objects.FromReply` | cmiskit.py:95-101 | a reply built from property values reads back through `fromDict` with the variant its base type names, its object id and every property value it carries; other names are KeyErrors |
| `Objects.GetPropertyValue` | cmiskit.py:119-120 | an object without info has no `info` attribute; otherwise the value is `info['properties'][key]['value']` |
| `Objects.Name` | cmiskit.py:107-109 | the `name` attribute is the `cmis:name` property; an object without info has no `info` attribute |
| `Objects.GetItem` | cmiskit.py:113-117 | `o['name']` and `o['cmis:name']` read the `cmis:name` property as the `name` attribute does; every other key is a bare KeyError |
| `Objects.NameFromReply` | cmiskit.py:107-120 | an object fetched from a reply gives that reply's `cmis:name` value under both item keys and as its `name` |
| `Objects.ChildEntries` | cmiskit.py:156 | iterating `info['objects']` reaches the entries of a list; an empty str or dict gives none; any other value is a TypeError |
| `Objects.Child` | cmiskit.py:157 | a child is `fromDict(o['object'])`: a non-dict entry is a TypeError, a dict without `object` is `KeyError('object')` |
| `Objects.ConvertAll` | cmiskit.py:156-157 | the children are `fromDict(entry['object'])` for each entry, in order; the listing fails exactly when some entry fails, with the error of the first failing entry |
| `Objects.ChildrenOf` | cmiskit.py:153-157 | a listing that is not a dict is a TypeError and one without `objects` is `KeyError('objects')`; otherwise a non-iterable `objects` is a TypeError and the entries are converted in order |
| `Objects.ConvertAllStopsAtFirstError` | cmiskit.py:156-157 | once a prefix of the entries fails, the whole listing fails with the same error |
| `Objects.ChildrenInOrder` | cmiskit.py:153-159 | an empty `objects` list gives no children; otherwise there is one child per entry, in order, each a Folder exactly when its own base type id is `cmis:folder` |
| `Objects.ActionFormDecodes` | cmiskit.py:140-141 | an action form carries the target id and the action name, and its numbered entries decode to exactly the properties sent |
| `Objects.Delete` | cmiskit.py:126-127 | `delete` posts exactly `objectId` and `cmisaction=delete` |
| `Objects.DeleteTree` | cmiskit.py:123-124 | `deleteTree` posts exactly `objectId` and `cmisaction=deleteTree` |
| `Objects.CreatedFromNoContent` | cmiskit.py:87-93 | a 204 reply to a creation gives an object without info whose id is None, so reading its name fails |
| `Objects.Folder.constructor` | cmiskit.py:87-93 | a new Folder wraps its snapshot with no cached children |
| `Objects.Folder.GetChildren` | cmiskit.py:153-159 | returns the listing of the reply and caches it on success; a failing listing leaves the cache as it was |
| `Objects.Folder.Children` | cmiskit.py:147-149 | the `children` attribute returns the cached list unchanged when there is one, and otherwise lists and caches as `getChildren` does |
| `Objects.Folder.CreateFolder` | cmiskit.py:161-163 | posts the numbered properties with the parent's id and `cmisaction=createFolder`, and builds a Folder from the reply whatever its base type |
| `Objects.Folder.CreateDocument` | cmiskit.py:165-167 | posts the numbered properties with the parent's id and `cmisaction=createDocument`, and builds a Document from the reply |
| `Repositories.DescriptorUrls` | cmiskit.py:59-60 | a descriptor yields its repository URL and root folder URL exactly when it is a dict holding both; a non-dict is a TypeError |
| `Repositories.Repository.constructor` | cmiskit.py:55-60 | a Repository keeps its client, its descriptor and the descriptor's two URLs, with no root folder resolved |
| `Repositories.Repository.RootFolderId` | cmiskit.py:65-66 | the root folder id is the descriptor's `rootFolderId` entry, which must exist |
| `Repositories.Repository.ObjectUrl` | cmiskit.py:74-83 | the object request is the root folder URL, `?`, and the `&`-join of `objectId=<id>` and `selector=object` in some order; a non-string root URL is a TypeError |
| `Repositories.Repository.GetRootFolder` | cmiskit.py:70-83 | a missing root folder id is the error; a root folder URL that is not a string is a TypeError; otherwise the request for a string id is the root folder URL with `objectId=<rootFolderId>` and `selector=object`, and the root folder is `fromDict` of the reply, cached on success; a failure leaves the cache alone |
| `Repositories.Repository.RootFolder` | cmiskit.py:62-72 | the `rootFolder` attribute reuses the cached folder without a request, and otherwise sends the `getRootFolder` request and resolves and caches the folder as it does |
| `Repositories.Client.constructor` | cmiskit.py:12-15 | a new Client keeps its URL and credentials and has an empty repository table |
| `Repositories.Client.MakeRepositories` | cmiskit.py:22-24 | the loop over the discovery entries gives one new, distinct Repository of this client per descriptor, under the descriptor's name and with its two URLs; it completes exactly when every descriptor has both URLs, and otherwise stops with the error of some descriptor |
| `Repositories.Client.Connect` | cmiskit.py:19-26 | after a successful connect the table's keys are the discovery keys, each entry a distinct new Repository for its descriptor holding that descriptor's two URLs, and the default repository is the `default` entry; a non-dict reply has no `items`; a malformed descriptor stops the loop with its error; a discovery without `default` is `KeyError('default')` |

## Left out

- The HTTP requests themselves (restkit `Resource`, `BasicAuth`, headers, the network) are not modelled. Replies are parameters, and so is `json.loads` (`parse`).
- Status codes that restkit turns into exceptions before the client classifies a response are not modelled. The model classifies whatever response it is given.
- `form_encode` is not modelled. The model stops at the form map.
- The diagnostic `print` in `Client._get` is not modelled.
- Transport.ReadBody: restkit's `Response.__getitem__` is not part of this model. The model takes it to answer None for a missing header, so the failure is the AttributeError of `None.startswith`.
- Repositories.Repository.GetRootFolder: the request URL for a `rootFolderId` that is not a string is not modelled (`request` is None), because it depends on Python's `%s` formatting of an arbitrary value. The reply is still read and cached as for a string id.
- Repositories.Repository.RootFolder: on a first access it has the same gap as `GetRootFolder`.
- Repositories.Repository.RootFolder: the cache holds the root folder's snapshot (a `CmisObject` value), not the `Objects.Folder` object Python stores and hands out again. So the `children` cache of `Objects.Folder.Children` does not carry over between accesses to `rootFolder`: in Python a second `repo.rootFolder.children` returns the list cached on the same object without a request, possibly stale. The same holds for the children in a cached listing, which are snapshots without their own `children` cache.
- `__getattr__` becomes explicit members: `Name`, `Repository.RootFolderId`, `Repository.RootFolder` and `Folder.Children`. The AttributeError for attribute names other than `info` is not modelled.
- `Object._get` (the children request URL) is not modelled. It formats the object id, an arbitrary JSON value, with Python's `%s`. `Folder.GetChildren` takes the reply to that request.
- `Object.fromObjectId` is not modelled. It only calls `getObject`.
- `Repository.getObject` is split into `Repository.ObjectUrl` (the request) and `FromDict` (the reply). `ObjectUrl` takes the id as a string.
- `Client.__init__` calls `connect` right away. The model has the constructor and `Connect` as two steps.
- Objects do not keep their `repo` reference. Only the Repository's back reference to its Client is kept.
- JSON numbers are integers. Floating point is not modelled.
- Python 2's mixing of `str` and `unicode` is not modelled. All strings are one string type.
- Concurrency (the unsynchronised first access to the two caches) is not modelled.
- The unittest suite is not modelled. It needs a live server and names objects from the clock.
- What the server does with `delete`, `deleteTree`, `createFolder` and `createDocument` is not modelled. Only the form each one sends is.
