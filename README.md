# sunspot_mongoid in Dafny

A model of `Sunspot::Mongoid`, the glue that lets Mongoid documents be indexed and
searched through Sunspot (Solr). The Ruby file does four things, and the model has
one module for each, plus two shared ones:

- `Documents` (documents.dfy): Mongoid documents with BSON ObjectId ids, the index key
  `InstanceAdapter#id` (the id's string form, 24 hexadecimal digits), and
  `DataAccessor#load` / `#load_all` over a collection held as a sequence.
- `SearchIndex` (search_index.dfy): the calls made on Sunspot (`index`, `index!`,
  `remove!`, `commit`) as values of a log, and a reference semantics for them. Indexed
  documents are first staged; a commit makes the staged entries visible to searches;
  `index!` and `remove!` commit at once. Sunspot itself is not part of this model; this
  semantics is the yardstick the hooks and the reindex are measured against.
- `Reindex` (reindex.dfy): the batches `solr_index` sends, as functions of the
  collection, and what is proved about them.
- `Hooks` (hooks.dfy): the `after_save` / `after_destroy` wiring and the proof that it
  keeps the index in step with the last save or destroy of each document.
- `Sessions` (sessions.dfy): `build_session`, `master_config`, `slave_config`.
- `Mongoid` (mongoid.dfy): the mutable parts. Class `Sunspot` holds the memoised
  `@configuration` and the log of calls; `SolrIndex` is the reindex loop (an outer loop
  over offsets and an inner loop collecting each page into `records`). `UpdateIndex`,
  `RemoveIndex` and `RunCallback` are the hooks.
- `Wrappers` (wrappers.dfy): `Option`, standing for Ruby's `nil`.

Two facts about `solr_index` shape the reindex part of the model:

- `0.step(count, 5000)` includes `count` itself, so there are always `count / 5000 + 1`
  calls to `Sunspot.index`. The last batch is empty when `count` is a multiple of 5000,
  and an empty collection gets one empty batch. See `Reindex.Batches`,
  `Reindex.LastBatchEmpty` and `Reindex.EmptyCollection`.
- `solr_index` ignores `opt` and always uses 5000.

## Model

| member | source | states |
|---|---|---|
| `Documents.Key` | lib/sunspot/mongoid.rb:56-58 | the index key of a document is the string form of its id, 24 characters long |
| `Documents.ToHex` | lib/sunspot/mongoid.rb:57 | the string form of an id has two characters per byte |
| `Documents.FromHex` | lib/sunspot/mongoid.rb:73 | reading a hexadecimal string back yields half as many bytes as characters, or nothing |
| `Documents.FromHexToHex` | lib/sunspot/mongoid.rb:57 | reading back the string form of any byte sequence gives that sequence again |
| `Documents.KeyNamesId` | lib/sunspot/mongoid.rb:56-58 | Mongoid reads a document's index key back as exactly that document's id |
| `Documents.KeyIdentifiesId` | lib/sunspot/mongoid.rb:56-58 | two documents have the same index key if and only if they have the same id |
| `Documents.ParseId` | lib/sunspot/mongoid.rb:73 | only a 24-character string can name an ObjectId |
| `Documents.Find` | lib/sunspot/mongoid.rb:72-74 | `criteria.find` returns the documents of the collection whose id is asked for, and only those |
| `Documents.FindStartsAtFirstMatch` | lib/sunspot/mongoid.rb:62-64 | the first result of `find` is the earliest matching document of the collection |
| `Documents.Load` | lib/sunspot/mongoid.rb:62-64 | `load(id)` finds something if and only if some document is named by `id`, and then returns the first such document; otherwise nothing |
| `Documents.LoadAll` | lib/sunspot/mongoid.rb:66-68 | `load_all(ids)` returns exactly the documents named by some key in `ids` |
| `Documents.LoadByKey` | lib/sunspot/mongoid.rb:56-64 | loading by a document's own index key finds a document with the same id and the same key |
| `SearchIndex.Keyed` | lib/sunspot/mongoid.rb:48 | indexing a batch gives an entry to every document's key, each entry holds a document with that key, and the last document of the batch owns its key |
| `SearchIndex.KeyedAppend` | lib/sunspot/mongoid.rb:43-48 | indexing two batches one after the other writes the same entries as indexing them joined |
| `SearchIndex.KeyedUnique` | lib/sunspot/mongoid.rb:43-48 | when ids are unique, indexing a collection gives each document the entry under its own key |
| `SearchIndex.Apply` | lib/sunspot/mongoid.rb:48-80 | an abstraction of Sunspot's semantics for the four calls this library issues (`index` at line 48, `commit` at 50, `remove!` at 77, `index!` at 80): `index` stages entries without changing what searches see; `index!` makes the document visible under its key; `remove!` leaves its key invisible; `commit` makes the staged entries visible; `index!` and `remove!` change no other key |
| `SearchIndex.ReplayAppend` | lib/sunspot/mongoid.rb:43-50 | replaying a log in two parts gives the same index as replaying it whole |
| `SearchIndex.IndexNowIdempotent` | lib/sunspot/mongoid.rb:79-81 | indexing the same saved document twice leaves the index as indexing it once |
| `Reindex.Page` | lib/sunspot/mongoid.rb:45 | a page read with `limit(5000)` holds at most 5000 documents |
| `Reindex.BatchCountFrom` | lib/sunspot/mongoid.rb:43-47 | from an offset not past the count, the pages still to be read (`Reindex.BatchesFrom`) number (count - offset) / 5000 + 1 |
| `Reindex.Batches` | lib/sunspot/mongoid.rb:43-48 | `solr_index` sends exactly `count / 5000 + 1` batches, and the batches joined in call order are the collection in skip/limit order: nothing repeated, nothing skipped |
| `Reindex.ReindexCalls` | lib/sunspot/mongoid.rb:43-50 | a run makes `count / 5000 + 2` calls; call i is the index call of batch i, and the last one is the only commit |
| `Reindex.NextBatch` | lib/sunspot/mongoid.rb:43-48 | each visited offset adds its page as the next batch and one index call for it to the log |
| `Reindex.LastBatchSent` | lib/sunspot/mongoid.rb:43-50 | once the offset passes the count every batch has been sent, and the commit completes the log of the run |
| `Reindex.BatchSizes` | lib/sunspot/mongoid.rb:42-48 | batch i holds min(5000, count - 5000 i) documents, so no batch holds more than 5000 |
| `Reindex.LastBatchEmpty` | lib/sunspot/mongoid.rb:43-48 | the last batch is empty if and only if the count is a multiple of 5000, zero included |
| `Reindex.EmptyCollection` | lib/sunspot/mongoid.rb:43-48 | an empty collection is sent as one empty batch |
| `Reindex.TwelveThousand` | lib/sunspot/mongoid.rb:43-48 | 12000 documents are sent in batches of 5000, 5000 and 2000 |
| `Reindex.ReplayIndexCalls` | lib/sunspot/mongoid.rb:43-48 | the index calls of a run stage the entries of all batches and change nothing that searches see |
| `Reindex.StagedUntilCommit` | lib/sunspot/mongoid.rb:43-50 | until the final commit, searches see the index as it was before the run |
| `Reindex.ReindexEffect` | lib/sunspot/mongoid.rb:42-51 | after a run, staged and visible entries are the earlier staged entries overridden by the whole collection |
| `Reindex.ReindexIndexesEveryDocument` | lib/sunspot/mongoid.rb:42-51 | after a run over a collection with unique ids, every document is visible under its own key |
| `Hooks.HookCall` | lib/sunspot/mongoid.rb:25-26 | after a save the document is sent with `index!`, after a destroy with `remove!`; one call each, about that document |
| `Hooks.LastTouch` | lib/sunspot/mongoid.rb:25-26 | the last callback on a key, when there is one, is a callback of the run on a document with that key |
| `Hooks.LastTouchIsLast` | lib/sunspot/mongoid.rb:25-26 | `LastTouch` is nothing exactly when no callback of the run touched the key, and otherwise the last callback that did |
| `Hooks.HooksKeepIndexInSync` | lib/sunspot/mongoid.rb:25-26 | after a run of hooks, a key is visible if and only if its last callback was a save, and then it holds that document; a key never touched keeps its entry; staged and visible agree |
| `Hooks.SaveThenDestroy` | lib/sunspot/mongoid.rb:76-81 | saving and then destroying a document leaves no entry under its key |
| `Sessions.BuildSession` | lib/sunspot/mongoid.rb:94-103 | the session is a master/slave proxy if and only if a master is configured; the master proxy is over the master endpoint and the slave proxy, or the single proxy, over the slave endpoint |
| `Sessions.MasterConfig` | lib/sunspot/mongoid.rb:106-114 | the master configuration's URL has host `master_hostname`, port `master_port` and path `master_path` |
| `Sessions.SlaveConfig` | lib/sunspot/mongoid.rb:116-124 | the slave configuration's URL has host `hostname`, port `port` and path `path` |
| `Sessions.MasterReadsOnlyMasterFields` | lib/sunspot/mongoid.rb:106-114 | the master proxy depends only on `master_hostname`, `master_port` and `master_path` |
| `Sessions.SlaveReadsOnlySlaveFields` | lib/sunspot/mongoid.rb:116-124 | the slave proxy depends only on `hostname`, `port` and `path`, in both modes |
| `Sessions.SessionEndpoints` | lib/sunspot/mongoid.rb:94-103 | without a master the session is built over the slave endpoint alone; with one, over the master and slave endpoints |
| `Sessions.SingleEndpointScenario` | lib/sunspot/mongoid.rb:100-101 | no master, host "a", port 8983, path "/solr": one proxy over that endpoint |
| `Sessions.MasterSlaveScenario` | lib/sunspot/mongoid.rb:95-99 | master "m" and slave "s": the master proxy is over "m" and the slave proxy over "s" |
| `Mongoid.MongoidConfiguration.constructor` | lib/sunspot/mongoid.rb:88 | a configuration remembers its path and the settings read for it |
| `Mongoid.Sunspot.constructor` | lib/sunspot/mongoid.rb:84-88 | the cache starts empty and no call has been made |
| `Mongoid.Sunspot.Configuration` | lib/sunspot/mongoid.rb:87-89 | the first call builds a fresh configuration from `path` and caches it; later calls return the cached object whatever `path` is |
| `Mongoid.Sunspot.SetConfiguration` | lib/sunspot/mongoid.rb:85 | `configuration=` replaces the cache with what it is given |
| `Mongoid.Sunspot.Reset` | lib/sunspot/mongoid.rb:91-93 | `reset` empties the cache |
| `Mongoid.Sunspot.BuildSession` | lib/sunspot/mongoid.rb:94-103 | with no argument, the session is built from the cached configuration, built first from the default `path = nil` if absent |
| `Mongoid.Sunspot.Index` | lib/sunspot/mongoid.rb:48 | `Sunspot.index` appends one index call to the log |
| `Mongoid.Sunspot.IndexNow` | lib/sunspot/mongoid.rb:80 | `Sunspot.index!` appends one call to the log |
| `Mongoid.Sunspot.RemoveNow` | lib/sunspot/mongoid.rb:77 | `Sunspot.remove!` appends one call to the log |
| `Mongoid.Sunspot.Commit` | lib/sunspot/mongoid.rb:50 | `Sunspot.commit` appends one commit to the log |
| `Mongoid.UpdateIndex` | lib/sunspot/mongoid.rb:79-81 | `_update_index` sends exactly the save hook's call and nothing else |
| `Mongoid.RemoveIndex` | lib/sunspot/mongoid.rb:76-78 | `_remove_index` sends exactly the destroy hook's call and nothing else |
| `Mongoid.RunCallback` | lib/sunspot/mongoid.rb:25-26 | a lifecycle callback appends exactly the call its registered hook sends |
| `Mongoid.CollectPage` | lib/sunspot/mongoid.rb:44-47 | the inner loop collects every document of the page, in page order, into `records` |
| `Mongoid.SolrIndex` | lib/sunspot/mongoid.rb:42-51 | the loop sends exactly the batches of `Reindex.Batches`, one index call each, then one commit; `opt` has no effect |
| `Mongoid.ConfigurationIsMemoised` | lib/sunspot/mongoid.rb:85-93 | a second call returns the first call's object whatever its path; after `reset` a new one is built from the new path; after `configuration=` the given object is returned |

## Left out

- Mongoid and Sunspot themselves. `count`, `limit`/`skip`, `criteria.find`, and the calls
  `Sunspot.index`, `index!`, `remove!` and `commit` are foreign code. Queries are
  functions over the collection as a sequence. Calls are entries appended to a log.
  What Solr does with them is given by the staged/visible semantics of `SearchIndex`,
  which is an abstraction.
- The collection is fixed for the whole of a `solr_index` run. Documents added or
  removed by others during the run are not modelled.
- Solr keys entries by class name and id. The model has one document class, so the key
  is the id string alone.
- Document ids are BSON ObjectIds. Custom `_id` types (strings, integers) are not
  modelled.
- `Documents.Load`: the model treats `criteria.find` (line 73) as a query that returns the
  matching documents as a sequence, which is what `criteria(id).first` at line 63
  presupposes, and `load` as the first of them or nothing. Mongoid's `find` with a single
  id does not return a sequence: it returns the document itself, or nil or an error
  (`DocumentNotFound`, the default) for a missing id, so line 63 as written is not
  this query. Neither the `first` of a single document nor the error is modelled.
- `Documents.LoadAll`: the model treats `criteria.find(ids)` as a query that returns the
  documents named by some id. With Mongoid's default `raise_not_found_error` it raises
  `DocumentNotFound` when any id is missing; that error is not modelled, and the model
  returns the documents that are found, with no order promised.
- `URI::HTTP.build` and `Sunspot::Configuration.build` are library code. An endpoint is
  kept as a (host, port, path) triple.
- `ThreadLocalSessionProxy` caches one session per thread, and `MasterSlaveSessionProxy`
  sends writes to the master and reads to the slave. Both are Sunspot code, and the first
  is about concurrency. The model only states which endpoint each proxy is built over.
- `self.included`, `ActsAsMethods#searchable` and the adapter registrations (lines 19-24
  and 30-37) are Ruby module plumbing. The model keeps only the effect of the two hooks
  they attach.
- `Sunspot::Mongoid::Configuration` parses a settings file, and that code is not part of
  this model. The settings it reads for a path are a parameter (`load`) of
  `Mongoid.Sunspot.Configuration`.
- Errors raised by Solr or the network propagate unchanged in Ruby. The model has no
  failing calls.
