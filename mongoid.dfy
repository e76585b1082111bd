/**
  The stateful side of `Sunspot::Mongoid`: the memoised configuration of
  the `Sunspot` module (`configuration`, `configuration=`, `reset`,
  `build_session`), the calls made on Sunspot (recorded in `log`), the
  two lifecycle hooks and the batched reindex `solr_index`.
 */
module Mongoid {
  import opened Wrappers
  import opened Documents
  import opened SearchIndex
  import opened Reindex
  import opened Hooks
  import Sessions

  /** A `Sunspot::Mongoid::Configuration`: the settings it read from the file at `path`. */
  class MongoidConfiguration {
    const path: Option<string>
    const settings: Sessions.Settings

    constructor (path: Option<string>, settings: Sessions.Settings)
      ensures this.path == path && this.settings == settings
    {
      this.path := path;
      this.settings := settings;
    }
  }

  /** The `Sunspot` module as this library sees it. */
  class Sunspot {
    /** `@configuration`, `nil` until first built or set. */
    var configuration: Option<MongoidConfiguration>
    /** Every call made on Sunspot so far, oldest first. */
    var log: seq<Call>

    constructor ()
      ensures configuration == None && log == []
    {
      configuration := None;
      log := [];
    }

    /**
      `configuration(path = nil)`: the cached configuration, built from the
      file at `path` on the first call only. `load` stands for the settings
      `Sunspot::Mongoid::Configuration.new` reads for a path.
     */
    method Configuration(path: Option<string>, load: Option<string> -> Sessions.Settings) returns (c: MongoidConfiguration)
      modifies this`configuration
      ensures configuration == Some(c)
      ensures old(configuration).Some? ==> c == old(configuration).value
      ensures old(configuration).None? ==> fresh(c) && c.path == path && c.settings == load(path)
    {
      if configuration.None? {
        c := new MongoidConfiguration(path, load(path));
        configuration := Some(c);
      } else {
        c := configuration.value;
      }
    }

    /** `configuration=`: replaces the cached configuration outright, `nil` included. */
    method SetConfiguration(c: Option<MongoidConfiguration>)
      modifies this`configuration
      ensures configuration == c
    {
      configuration := c;
    }

    /** `reset`: forgets the cached configuration, so that the next call builds it again. */
    method Reset()
      modifies this`configuration
      ensures configuration == None
    {
      configuration := None;
    }

    /** `build_session` with its default argument, `self.configuration`. */
    method BuildSession(load: Option<string> -> Sessions.Settings) returns (session: Sessions.Session)
      modifies this`configuration
      ensures configuration.Some?
      ensures old(configuration).Some? ==> configuration == old(configuration)
      ensures old(configuration).None? ==>
        fresh(configuration.value) && configuration.value.path == None && configuration.value.settings == load(None)
      ensures session == Sessions.BuildSession(configuration.value.settings)
    {
      var c := Configuration(None, load);
      session := Sessions.BuildSession(c.settings);
    }

    /** `Sunspot.index(records)`. */
    method Index(records: seq<Record>)
      modifies this`log
      ensures log == old(log) + [Call.Index(records)]
    {
      log := log + [Call.Index(records)];
    }

    /** `Sunspot.index!(record)`: index and commit. */
    method IndexNow(record: Record)
      modifies this`log
      ensures log == old(log) + [Call.IndexNow(record)]
    {
      log := log + [Call.IndexNow(record)];
    }

    /** `Sunspot.remove!(record)`: remove and commit. */
    method RemoveNow(record: Record)
      modifies this`log
      ensures log == old(log) + [Call.RemoveNow(record)]
    {
      log := log + [Call.RemoveNow(record)];
    }

    /** `Sunspot.commit`. */
    method Commit()
      modifies this`log
      ensures log == old(log) + [Call.Commit]
    {
      log := log + [Call.Commit];
    }
  }

  /** `_update_index`: a saved document is indexed at once. */
  method UpdateIndex(sunspot: Sunspot, doc: Record)
    modifies sunspot`log
    ensures sunspot.log == old(sunspot.log) + [HookCall(AfterSave(doc))]
  {
    sunspot.IndexNow(doc);
  }

  /** `_remove_index`: a destroyed document is removed at once. */
  method RemoveIndex(sunspot: Sunspot, doc: Record)
    modifies sunspot`log
    ensures sunspot.log == old(sunspot.log) + [HookCall(AfterDestroy(doc))]
  {
    sunspot.RemoveNow(doc);
  }

  /** The callbacks registered by `after_save :_update_index` and `after_destroy :_remove_index`. */
  method RunCallback(sunspot: Sunspot, e: Lifecycle)
    modifies sunspot`log
    ensures sunspot.log == old(sunspot.log) + [HookCall(e)]
  {
    match e
    case AfterSave(doc) => UpdateIndex(sunspot, doc);
    case AfterDestroy(doc) => RemoveIndex(sunspot, doc);
  }

  /** The inner loop of `solr_index`: `records = []`, then `records << r` for each document of the page. */
  method CollectPage(page: seq<Record>) returns (records: seq<Record>)
    ensures records == page
  {
    records := [];
    var i := 0;
    while i < |page|
      invariant 0 <= i <= |page|
      invariant records == page[..i]
    {
      records := records + [page[i]];
      i := i + 1;
    }
  }

  /**
    `solr_index(opt = {})`: reads the collection `coll` in pages of 5000 at
    offsets 0, 5000, ... up to and including its count, indexes each page as
    one batch, then commits once. `opt` is accepted and ignored.
   */
  method SolrIndex(sunspot: Sunspot, coll: seq<Record>, opt: map<string, string>)
    modifies sunspot`log
    ensures sunspot.log == old(sunspot.log) + ReindexCalls(coll)
  {
    ghost var before := sunspot.log;
    var count := |coll|;
    var offset := 0;
    ghost var sent: seq<seq<Record>> := [];
    while offset <= count
      invariant sent + BatchesFrom(coll, offset) == BatchesFrom(coll, 0)
      invariant sunspot.log == before + IndexCalls(sent)
      decreases count - offset
    {
      var page := Page(coll, offset);
      var records := CollectPage(page);
      sunspot.Index(records);
      NextBatch(coll, offset, sent, before, sunspot.log);
      sent := sent + [records];
      offset := offset + BatchSize;
    }
    LastBatchSent(coll, offset, sent);
    sunspot.Commit();
  }

  /**
    The memoisation of `configuration`: a second call returns the object the
    first built, whatever path it is given; after `reset` the next call
    builds a new one from its own path; `configuration=` installs what it is
    given.
   */
  method ConfigurationIsMemoised(path1: Option<string>, path2: Option<string>, load: Option<string> -> Sessions.Settings,
                                 replacement: MongoidConfiguration)
    returns (first: MongoidConfiguration, second: MongoidConfiguration, rebuilt: MongoidConfiguration,
             replaced: MongoidConfiguration)
    ensures first == second
    ensures rebuilt != first && rebuilt.path == path2 && rebuilt.settings == load(path2)
    ensures first.path == path1 && first.settings == load(path1)
    ensures replaced == replacement
  {
    var sunspot := new Sunspot();
    first := sunspot.Configuration(path1, load);
    second := sunspot.Configuration(path2, load);
    sunspot.Reset();
    rebuilt := sunspot.Configuration(path2, load);
    sunspot.SetConfiguration(Some(replacement));
    replaced := sunspot.Configuration(path1, load);
  }
}
