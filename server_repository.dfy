/** `ServerRepository`: the in-memory list of configured guilds, the JSON file
    it is loaded from and rewritten to, and `convert_to_dict` / `convert_to_server`. */
module ServerStore {
  import opened Wrappers
  import opened Json
  import opened ChannelTypes
  import opened ServerModel

  /** What is at the store's path: no file, a file `json.load` rejects, or a JSON value. */
  datatype FileState = Missing | Undecodable | Decoded(content: Json)

  /** The store file, seen only through `load_json_file` / `write_json_file`.
      `writable` says whether `open(path, 'w')` succeeds. */
  class ServerFile {
    var state: FileState
    var writable: bool

    constructor (state: FileState, writable: bool)
      ensures this.state == state && this.writable == writable
    {
      this.state := state;
      this.writable := writable;
    }

    /** `write_json_file`: replaces the whole file, or raises FileNotFoundError and leaves it alone. */
    method Write(data: Json) returns (error: Option<PyError>)
      modifies this
      ensures writable == old(writable)
      ensures error == if old(writable) then None else Some(FileNotFound)
      ensures state == if old(writable) then Decoded(data) else old(state)
    {
      if writable {
        state := Decoded(data);
        error := None;
      } else {
        error := Some(FileNotFound);
      }
    }
  }

  // ---------------------------------------------------------------------------
  // convert_to_dict

  /** `channel.__dict__` */
  function ChannelToDict(c: Channel): Json {
    JObj([("channel_id", JInt(c.channelId)), ("name", JStr(c.name)),
          ("announcement_rol", JInt(c.announcementRol))])
  }

  /** An absent binding is written as the empty string. */
  function ChannelEntry(c: Option<Channel>): Json {
    match c
    case None => JStr("")
    case Some(ch) => ChannelToDict(ch)
  }

  function ConvertToDict(s: ServerInfo): (r: Json)
    ensures r.JObj?
    ensures Get(r.fields, "server_id") == Some(JInt(s.serverId)) && Get(r.fields, "name") == Some(JStr(s.name))
    ensures Get(r.fields, "birthday_channel") == Some(ChannelEntry(s.birthdayChannel))
    ensures Get(r.fields, "event_channel") == Some(ChannelEntry(s.eventChannel))
  {
    var fields := [("server_id", JInt(s.serverId)), ("name", JStr(s.name)),
                   ("birthday_channel", ChannelEntry(s.birthdayChannel)),
                   ("event_channel", ChannelEntry(s.eventChannel))];
    GetLast(fields, "server_id", 0);
    GetLast(fields, "name", 1);
    GetLast(fields, "birthday_channel", 2);
    GetLast(fields, "event_channel", 3);
    JObj(fields)
  }

  /** `[convert_to_dict(server) for server in servers]` */
  function DictsOf(infos: seq<ServerInfo>): (r: seq<Json>)
    ensures |r| == |infos| && forall i :: 0 <= i < |infos| ==> r[i] == ConvertToDict(infos[i])
  {
    if infos == [] then [] else [ConvertToDict(infos[0])] + DictsOf(infos[1..])
  }

  // ---------------------------------------------------------------------------
  // convert_to_server

  /** `v[key]` where the model expects an integer. */
  function IntField(v: Json, key: string): (r: Result<int>)
    ensures r.Ok? ==> v.JObj?
  {
    var x :- Subscript(v, key);
    if x.JInt? then Ok(x.i) else Raised(TypeError)
  }

  /** `v[key]` where the model expects a string. */
  function StrField(v: Json, key: string): (r: Result<string>)
    ensures r.Ok? ==> v.JObj?
  {
    var x :- Subscript(v, key);
    if x.JStr? then Ok(x.s) else Raised(TypeError)
  }

  /** `Channel(v['channel_id'], v['name'], v['announcement_rol'])` */
  function ChannelFromDict(v: Json): Result<Channel> {
    var channelId :- IntField(v, "channel_id");
    var name :- StrField(v, "name");
    var rol :- IntField(v, "announcement_rol");
    Ok(Channel(channelId, name, rol))
  }

  /** The binding under `key`: absent exactly when `server_dict.get(key) != ''` is false,
      otherwise `server_dict[key]` is decoded, so a missing key raises KeyError. */
  function ChannelFromEntry(fields: seq<(string, Json)>, key: string): Result<Option<Channel>> {
    var entry := Get(fields, key);
    if entry == Some(JStr("")) then Ok(None)
    else if entry.None? then Raised(KeyError)
    else
      var c :- ChannelFromDict(entry.value);
      Ok(Some(c))
  }

  function ConvertToServer(d: Json): (r: Result<ServerInfo>)
    ensures !d.JObj? ==> r == Raised(TypeError)
    ensures d.JObj? && Get(d.fields, "server_id").None? ==> r == Raised(KeyError)
    ensures r.Ok? ==> d.JObj? && Get(d.fields, "server_id") == Some(JInt(r.value.serverId)) &&
                      Get(d.fields, "name") == Some(JStr(r.value.name))
    ensures r.Ok? ==> (r.value.birthdayChannel.None? <==> Get(d.fields, "birthday_channel") == Some(JStr("")))
    ensures r.Ok? ==> (r.value.eventChannel.None? <==> Get(d.fields, "event_channel") == Some(JStr("")))
  {
    var serverId :- IntField(d, "server_id");
    var name :- StrField(d, "name");
    var birthday :- ChannelFromEntry(d.fields, "birthday_channel");
    var event :- ChannelFromEntry(d.fields, "event_channel");
    Ok(ServerInfo(serverId, name, birthday, event))
  }

  /** Decoding a written server gives it back: id, name and both bindings. */
  lemma ConvertRoundTrip(s: ServerInfo)
    ensures ConvertToServer(ConvertToDict(s)) == Ok(s)
  {
    var d := ConvertToDict(s);
    ChannelEntryRoundTrip(d.fields, "birthday_channel", s.birthdayChannel);
    ChannelEntryRoundTrip(d.fields, "event_channel", s.eventChannel);
  }

  lemma ChannelEntryRoundTrip(fields: seq<(string, Json)>, key: string, c: Option<Channel>)
    requires Get(fields, key) == Some(ChannelEntry(c))
    ensures ChannelFromEntry(fields, key) == Ok(c)
  {
    if c.Some? {
      var d := ChannelToDict(c.value);
      GetLast(d.fields, "channel_id", 0);
      GetLast(d.fields, "name", 1);
      GetLast(d.fields, "announcement_rol", 2);
    }
  }

  /** Only the exact empty string reads as an absent binding; a missing key
      raises KeyError and `null` raises TypeError. */
  lemma AbsentOnlyForEmptyString(fields: seq<(string, Json)>, key: string)
    ensures ChannelFromEntry(fields, key) == Ok(None) <==> Get(fields, key) == Some(JStr(""))
    ensures Get(fields, key).None? ==> ChannelFromEntry(fields, key) == Raised(KeyError)
    ensures Get(fields, key) == Some(JNull) ==> ChannelFromEntry(fields, key) == Raised(TypeError)
  {
  }

  // ---------------------------------------------------------------------------
  // __load_servers

  /** The loop over a JSON list: a TypeError stops it and keeps what was converted
      before; any other exception escapes. */
  function DecodeServers(items: seq<Json>): Result<seq<ServerInfo>> {
    if items == [] then Ok([])
    else match ConvertToServer(items[0])
      case Ok(s) => Prepend([s], DecodeServers(items[1..]))
      case Raised(e) => if e == TypeError then Ok([]) else Raised(e)
  }

  /** One iteration of the loop over the entries from index `i`. */
  lemma DecodeStep(items: seq<Json>, i: int)
    requires 0 <= i < |items|
    ensures DecodeServers(items[i..]) ==
      match ConvertToServer(items[i])
      case Ok(s) => Prepend([s], DecodeServers(items[i + 1..]))
      case Raised(e) => if e == TypeError then Ok([]) else Raised(e)
  {
    assert items[i..][0] == items[i];
    assert items[i..][1..] == items[i + 1..];
  }

  /** What `__load_servers` returns, or the exception it lets escape. */
  function LoadServers(state: FileState): Result<seq<ServerInfo>> {
    match state
    case Missing => Ok([])
    case Undecodable => Ok([])
    case Decoded(content) =>
      if content.JArr? then DecodeServers(content.items)
      // a dict iterates its keys and a string its characters, whose first
      // `convert_to_server` raises TypeError; other values are not iterable
      else Ok([])
  }

  /** The loaded list is the longest prefix of the file's entries that convert,
      cut at the first entry that raises TypeError. */
  lemma {:induction false} DecodeServersPrefix(items: seq<Json>)
    ensures DecodeServers(items).Ok? ==>
      var xs := DecodeServers(items).value;
      && |xs| <= |items|
      && (forall i :: 0 <= i < |xs| ==> ConvertToServer(items[i]) == Ok(xs[i]))
      && (|xs| < |items| ==> ConvertToServer(items[|xs|]) == Raised(TypeError))
  {
    if items != [] && ConvertToServer(items[0]).Ok? {
      var tail := items[1..];
      DecodeServersPrefix(tail);
      var rest := DecodeServers(tail);
      if rest.Ok? {
        var xs := [ConvertToServer(items[0]).value] + rest.value;
        assert DecodeServers(items) == Ok(xs);
        assert forall i :: 0 < i < |items| ==> items[i] == tail[i - 1];
      }
    }
  }

  /** An exception other than TypeError escapes from the first entry that
      raises one; every entry before it converted. */
  lemma {:induction false} DecodeServersEscape(items: seq<Json>)
    ensures DecodeServers(items).Raised? ==>
      exists k :: 0 <= k < |items| && ConvertToServer(items[k]) == Raised(DecodeServers(items).error) &&
                  forall i :: 0 <= i < k ==> ConvertToServer(items[i]).Ok?
  {
    if items != [] && ConvertToServer(items[0]).Ok? {
      var tail := items[1..];
      DecodeServersEscape(tail);
      var rest := DecodeServers(tail);
      if rest.Raised? {
        assert DecodeServers(items) == rest;
        var k :| 0 <= k < |tail| && ConvertToServer(tail[k]) == Raised(rest.error) &&
                 forall i :: 0 <= i < k ==> ConvertToServer(tail[i]).Ok?;
        assert items[k + 1] == tail[k];
        assert forall i :: 0 < i < k + 1 ==> items[i] == tail[i - 1];
      }
    }
  }

  /** Whatever is written by a successful save loads back unchanged. */
  lemma {:induction false} LoadAfterWrite(infos: seq<ServerInfo>)
    ensures DecodeServers(DictsOf(infos)) == Ok(infos)
    ensures LoadServers(Decoded(JArr(DictsOf(infos)))) == Ok(infos)
  {
    if infos != [] {
      ConvertRoundTrip(infos[0]);
      assert DictsOf(infos)[1..] == DictsOf(infos[1..]);
      LoadAfterWrite(infos[1..]);
      assert [infos[0]] + infos[1..] == infos;
    }
  }

  // ---------------------------------------------------------------------------
  // find_server_by_id, __save_server, create_server on snapshots

  /** The first server with the id, or None. */
  function FindById(infos: seq<ServerInfo>, serverId: int): (r: Option<ServerInfo>)
    ensures r.None? <==> forall i :: 0 <= i < |infos| ==> infos[i].serverId != serverId
    ensures r.Some? ==> r.value.serverId == serverId && r.value in infos
  {
    if infos == [] then None
    else if infos[0].serverId == serverId then Some(infos[0])
    else FindById(infos[1..], serverId)
  }

  /** `FindById` returns the entry at the first index that carries the id. */
  lemma {:induction false} FindByIdFirst(infos: seq<ServerInfo>, serverId: int, k: int)
    requires 0 <= k < |infos| && infos[k].serverId == serverId
    requires forall j :: 0 <= j < k ==> infos[j].serverId != serverId
    ensures FindById(infos, serverId) == Some(infos[k])
  {
    if k > 0 {
      FindByIdFirst(infos[1..], serverId, k - 1);
    }
  }

  /** The first index that carries the id, when there is one. */
  lemma {:induction false} FindByIdIndex(infos: seq<ServerInfo>, serverId: int) returns (k: int)
    requires FindById(infos, serverId).Some?
    ensures 0 <= k < |infos| && infos[k] == FindById(infos, serverId).value
    ensures forall j :: 0 <= j < k ==> infos[j].serverId != serverId
  {
    if infos[0].serverId == serverId {
      k := 0;
    } else {
      var k' := FindByIdIndex(infos[1..], serverId);
      k := k' + 1;
    }
  }

  /** Every entry with the snapshot's id replaced by it. */
  function ReplaceAll(infos: seq<ServerInfo>, s: ServerInfo): (r: seq<ServerInfo>)
    ensures |r| == |infos|
    ensures forall i :: 0 <= i < |infos| ==>
              r[i] == if infos[i].serverId == s.serverId then s else infos[i]
  {
    if infos == [] then []
    else [if infos[0].serverId == s.serverId then s else infos[0]] + ReplaceAll(infos[1..], s)
  }

  /** What `__save_server` does to the list: replace every entry with the id,
      or append when there is none. */
  function ReplaceOrAppend(infos: seq<ServerInfo>, s: ServerInfo): seq<ServerInfo> {
    if FindById(infos, s.serverId).Some? then ReplaceAll(infos, s) else infos + [s]
  }

  /** What `create_server` does to the list: the first server with the id (or a
      new one with the given name) gets the binding, then is saved. */
  function Upsert(infos: seq<ServerInfo>, serverId: int, serverName: string,
                  channel: Channel, kind: ChannelType): seq<ServerInfo>
  {
    var base := FindById(infos, serverId).GetOr(ServerInfo(serverId, serverName, None, None));
    ReplaceOrAppend(infos, base.WithChannel(kind, channel))
  }

  /** A new id: one server is appended, with the given name and only the requested binding;
      nothing before it changes. */
  lemma UpsertNewServer(infos: seq<ServerInfo>, serverId: int, serverName: string,
                        channel: Channel, kind: ChannelType)
    requires FindById(infos, serverId).None?
    ensures var r := Upsert(infos, serverId, serverName, channel, kind);
      && |r| == |infos| + 1
      && r[..|infos|] == infos
      && r[|infos|].serverId == serverId && r[|infos|].name == serverName
      && r[|infos|].ChannelOf(kind) == Some(channel)
      && r[|infos|].ChannelOf(Other(kind)) == None
      && FindById(r, serverId) == Some(r[|infos|])
  {
    var r := Upsert(infos, serverId, serverName, channel, kind);
    assert r[..|infos|] == infos;
    FindByIdFirst(r, serverId, |infos|);
  }

  /** A known id: the length is kept, the first server with the id gets the binding,
      keeps its name (the name argument is ignored) and its other binding; every
      entry with another id is unchanged. */
  lemma UpsertExistingServer(infos: seq<ServerInfo>, serverId: int, serverName: string,
                             channel: Channel, kind: ChannelType)
    requires FindById(infos, serverId).Some?
    ensures var s := FindById(infos, serverId).value;
            var r := Upsert(infos, serverId, serverName, channel, kind);
      && |r| == |infos|
      && FindById(r, serverId) == Some(s.WithChannel(kind, channel))
      && FindById(r, serverId).value.name == s.name
      && FindById(r, serverId).value.ChannelOf(Other(kind)) == s.ChannelOf(Other(kind))
      && (forall i :: 0 <= i < |infos| && infos[i].serverId != serverId ==> r[i] == infos[i])
      && (forall i :: 0 <= i < |infos| && infos[i].serverId == serverId ==> r[i] == s.WithChannel(kind, channel))
  {
    var s := FindById(infos, serverId).value;
    var r := Upsert(infos, serverId, serverName, channel, kind);
    var k := FindByIdIndex(infos, serverId);
    FindByIdFirst(r, serverId, k);
  }

  /** Servers with other ids are found exactly as before. */
  lemma UpsertOthersUntouched(infos: seq<ServerInfo>, serverId: int, serverName: string,
                              channel: Channel, kind: ChannelType, otherId: int)
    requires otherId != serverId
    ensures FindById(Upsert(infos, serverId, serverName, channel, kind), otherId) == FindById(infos, otherId)
  {
    var r := Upsert(infos, serverId, serverName, channel, kind);
    if FindById(infos, otherId).Some? {
      var k := FindByIdIndex(infos, otherId);
      FindByIdFirst(r, otherId, k);
    } else {
      assert forall i :: 0 <= i < |r| ==> r[i].serverId != otherId;
    }
  }

  /** The list grows by one exactly when the id was new. */
  lemma UpsertLength(infos: seq<ServerInfo>, serverId: int, serverName: string,
                     channel: Channel, kind: ChannelType)
    ensures |Upsert(infos, serverId, serverName, channel, kind)| ==
            |infos| + (if FindById(infos, serverId).None? then 1 else 0)
  {
  }

  /** Configuring a kind twice keeps only the second binding, never a merge;
      with equal arguments the second call changes nothing. */
  lemma UpsertLastCallWins(infos: seq<ServerInfo>, serverId: int, name1: string, name2: string,
                           c1: Channel, c2: Channel, kind: ChannelType)
    ensures Upsert(Upsert(infos, serverId, name1, c1, kind), serverId, name2, c2, kind) ==
            Upsert(infos, serverId, name1, c2, kind)
  {
    var r1 := Upsert(infos, serverId, name1, c1, kind);
    var base := FindById(infos, serverId).GetOr(ServerInfo(serverId, name1, None, None));
    var s1 := base.WithChannel(kind, c1);
    var s2 := base.WithChannel(kind, c2);
    assert s1.WithChannel(kind, c2) == s2;
    if FindById(infos, serverId).Some? {
      UpsertExistingServer(infos, serverId, name1, c1, kind);
      assert FindById(r1, serverId) == Some(s1);
      ReplaceAllTwice(infos, s1, s2);
    } else {
      UpsertNewServer(infos, serverId, name1, c1, kind);
      assert r1 == infos + [s1];
      ReplaceAllAppended(infos, s1, s2);
    }
  }

  /** Replacing by the same id twice leaves only the second replacement. */
  lemma ReplaceAllTwice(infos: seq<ServerInfo>, s1: ServerInfo, s2: ServerInfo)
    requires s1.serverId == s2.serverId
    ensures ReplaceAll(ReplaceAll(infos, s1), s2) == ReplaceAll(infos, s2)
  {
    var lhs, rhs := ReplaceAll(ReplaceAll(infos, s1), s2), ReplaceAll(infos, s2);
    assert forall i :: 0 <= i < |lhs| ==> lhs[i] == rhs[i];
  }

  /** Replacing after an append to a list without the id replaces the appended entry. */
  lemma ReplaceAllAppended(infos: seq<ServerInfo>, s1: ServerInfo, s2: ServerInfo)
    requires s1.serverId == s2.serverId
    requires forall i :: 0 <= i < |infos| ==> infos[i].serverId != s1.serverId
    ensures ReplaceAll(infos + [s1], s2) == infos + [s2]
  {
    var lhs, rhs := ReplaceAll(infos + [s1], s2), infos + [s2];
    assert forall i :: 0 <= i < |lhs| ==> lhs[i] == rhs[i];
  }

  /** Replacing by id only looks at entries with that id. */
  lemma ReplaceOrAppendIgnoresSameId(a: seq<ServerInfo>, b: seq<ServerInfo>, s: ServerInfo)
    requires |a| == |b|
    requires forall i :: 0 <= i < |a| ==> a[i].serverId == b[i].serverId
    requires forall i :: 0 <= i < |a| && a[i].serverId != s.serverId ==> a[i] == b[i]
    ensures ReplaceOrAppend(a, s) == ReplaceOrAppend(b, s)
  {
    assert FindById(a, s.serverId).None? <==> FindById(b, s.serverId).None?;
    if FindById(a, s.serverId).Some? {
      assert ReplaceAll(a, s) == ReplaceAll(b, s);
    } else {
      assert a == b;
    }
  }

  /** Saving the configured server onto a list in which only entries with its
      id changed is `Upsert` of the list before the change. */
  lemma SaveAfterConfigure(before: seq<ServerInfo>, after: seq<ServerInfo>, target: ServerInfo,
                           serverId: int, serverName: string, channel: Channel, kind: ChannelType)
    requires target == FindById(before, serverId).GetOr(ServerInfo(serverId, serverName, None, None))
                         .WithChannel(kind, channel)
    requires |after| == |before|
    requires forall i :: 0 <= i < |before| ==> after[i].serverId == before[i].serverId
    requires forall i :: 0 <= i < |before| && before[i].serverId != serverId ==> after[i] == before[i]
    ensures ReplaceOrAppend(after, target) == Upsert(before, serverId, serverName, channel, kind)
  {
    ReplaceOrAppendIgnoresSameId(after, before, target);
  }

  /** The list the scan of `__save_server` leaves: every entry with the id
      replaced, then the new one appended if none had it. */
  lemma ReplacedList(before: seq<ServerInfo>, replaced: seq<ServerInfo>, s: ServerInfo, found: bool)
    requires |replaced| == |before|
    requires forall j :: 0 <= j < |before| ==>
               replaced[j] == if before[j].serverId == s.serverId then s else before[j]
    requires found <==> exists j :: 0 <= j < |before| && before[j].serverId == s.serverId
    ensures ReplaceOrAppend(before, s) == if found then replaced else replaced + [s]
  {
    if found {
      assert replaced == ReplaceAll(before, s);
    } else {
      assert replaced == before;
    }
  }

  // ---------------------------------------------------------------------------
  // The repository object

  /** The snapshots of a list of server objects. */
  function InfosOf(ss: seq<Server>): (r: seq<ServerInfo>)
    reads ss
    ensures |r| == |ss| && forall i :: 0 <= i < |ss| ==> r[i] == ss[i].Info()
  {
    if ss == [] then [] else [ss[0].Info()] + InfosOf(ss[1..])
  }

  lemma InfosOfAppend(ss: seq<Server>, s: Server)
    ensures InfosOf(ss + [s]) == InfosOf(ss) + [s.Info()]
  {
  }

  /** What the scan of `__save_server` leaves, in terms of snapshots. */
  lemma ScannedInfos(ss: seq<Server>, result: seq<Server>, newServer: Server, found: bool)
    requires |result| == |ss|
    requires forall j :: 0 <= j < |ss| ==>
               result[j] == if ss[j].serverId == newServer.serverId then newServer else ss[j]
    requires found <==> exists j :: 0 <= j < |ss| && ss[j].serverId == newServer.serverId
    ensures ReplaceOrAppend(InfosOf(ss), newServer.Info()) ==
            if found then InfosOf(result) else InfosOf(result) + [newServer.Info()]
    ensures found ==> newServer in result
    ensures forall s :: s in result ==> s == newServer || s in ss
  {
    ReplacedList(InfosOf(ss), InfosOf(result), newServer.Info(), found);
    if found {
      var j :| 0 <= j < |ss| && ss[j].serverId == newServer.serverId;
      assert result[j] == newServer;
    }
  }

  /** `getattr(server, 'add_' + channel_type.value)(channel)`: the setter the
      kind's value names overwrites that kind's binding. */
  method ApplySetter(target: Server, kind: ChannelType, channel: Channel)
    modifies target
    ensures target.Info() == old(target.Info()).WithChannel(kind, channel)
  {
    var setter := SetterFor(SetterName(kind));
    SetterDispatchTotal(kind);
    if setter == Some(ChannelType.Birthday) {
      target.AddBirthdayChannel(channel);
    } else if setter == Some(ChannelType.Event) {
      target.AddEventChannel(channel);
    }
  }

  class ServerRepository {
    const file: ServerFile
    var servers: seq<Server>

    function Infos(): seq<ServerInfo>
      reads this, servers
    {
      InfosOf(servers)
    }

    constructor FromLoaded(file: ServerFile, servers: seq<Server>)
      ensures this.file == file && this.servers == servers
    {
      this.file := file;
      this.servers := servers;
    }

    /** `ServerRepository(servers_path)`: the list starts as what the file loads to;
        an exception that escapes the load escapes the constructor. */
    static method Open(file: ServerFile) returns (r: Result<ServerRepository>)
      ensures r.Ok? <==> LoadServers(file.state).Ok?
      ensures r.Ok? ==> fresh(r.value) && r.value.file == file &&
                        r.value.Infos() == LoadServers(file.state).value
      ensures r.Raised? ==> r.error == LoadServers(file.state).error
    {
      var loaded := LoadFrom(file);
      if loaded.Ok? {
        var repository := new ServerRepository.FromLoaded(file, loaded.value);
        r := Ok(repository);
      } else {
        r := Raised(loaded.error);
      }
    }

    /** `__load_servers`: fresh server objects for the entries the file loads to. */
    static method LoadFrom(file: ServerFile) returns (r: Result<seq<Server>>)
      ensures r.Ok? <==> LoadServers(file.state).Ok?
      ensures r.Ok? ==> InfosOf(r.value) == LoadServers(file.state).value
      ensures r.Ok? ==> forall i :: 0 <= i < |r.value| ==> fresh(r.value[i])
      ensures r.Raised? ==> r.error == LoadServers(file.state).error
    {
      var servers: seq<Server> := [];
      if !file.state.Decoded? || !file.state.content.JArr? {
        return Ok(servers);
      }
      var items := file.state.content.items;
      var i := 0;
      assert items[0..] == items;
      assert InfosOf(servers) == [];
      PrependNothing(DecodeServers(items));
      while i < |items|
        invariant 0 <= i <= |items|
        invariant forall j :: 0 <= j < |servers| ==> fresh(servers[j])
        invariant Prepend(InfosOf(servers), DecodeServers(items[i..])) == DecodeServers(items)
      {
        var converted := ConvertToServer(items[i]);
        DecodeStep(items, i);
        if converted.Raised? {
          if converted.error == TypeError {
            PrependOk(InfosOf(servers), []);
            return Ok(servers);
          }
          return Raised(converted.error);
        }
        var info := converted.value;
        ghost var prefix := InfosOf(servers);
        var server := new Server(info.serverId, info.name, info.birthdayChannel, info.eventChannel);
        InfosOfAppend(servers, server);
        servers := servers + [server];
        PrependAppend(prefix, info, DecodeServers(items[i + 1..]));
        i := i + 1;
      }
      assert items[i..] == [];
      return Ok(servers);
    }

    /** `find_server_by_id`: the first server object with the id, or None. */
    method FindServerById(serverId: int) returns (r: Option<Server>)
      ensures r.None? <==> FindById(Infos(), serverId).None?
      ensures r.Some? ==> r.value in servers && r.value.serverId == serverId &&
                          r.value.Info() == FindById(Infos(), serverId).value
      ensures r.Some? ==> exists k :: 0 <= k < |servers| && servers[k] == r.value &&
                                      forall j :: 0 <= j < k ==> servers[j].serverId != serverId
    {
      var i := 0;
      while i < |servers|
        invariant 0 <= i <= |servers|
        invariant forall j :: 0 <= j < i ==> servers[j].serverId != serverId
      {
        if servers[i].serverId == serverId {
          FindByIdFirst(Infos(), serverId, i);
          return Some(servers[i]);
        }
        i := i + 1;
      }
      return None;
    }

    /** The scan of `__save_server`: every entry with the new server's id is
        replaced by it, and `found` says whether there was one. */
    static method ScanReplace(ss: seq<Server>, newServer: Server) returns (result: seq<Server>, found: bool)
      ensures |result| == |ss|
      ensures forall j :: 0 <= j < |ss| ==>
                result[j] == if ss[j].serverId == newServer.serverId then newServer else ss[j]
      ensures found <==> exists j :: 0 <= j < |ss| && ss[j].serverId == newServer.serverId
    {
      result := ss;
      found := false;
      var index := 0;
      while index < |ss|
        invariant 0 <= index <= |ss| == |result|
        invariant found <==> exists j :: 0 <= j < index && ss[j].serverId == newServer.serverId
        invariant forall j :: 0 <= j < index ==>
                    result[j] == if ss[j].serverId == newServer.serverId then newServer else ss[j]
        invariant forall j :: index <= j < |ss| ==> result[j] == ss[j]
      {
        if ss[index].serverId == newServer.serverId {
          found := true;
          result := result[index := newServer];
        }
        index := index + 1;
      }
    }

    /** The list `__save_server` builds: the scan's result, with the new server
        appended when no entry had its id. */
    static method SavedList(ss: seq<Server>, newServer: Server) returns (result: seq<Server>)
      ensures InfosOf(result) == ReplaceOrAppend(InfosOf(ss), newServer.Info())
      ensures newServer in result
      ensures forall s :: s in result ==> s == newServer || s in ss
    {
      var found;
      result, found := ScanReplace(ss, newServer);
      ScannedInfos(ss, result, newServer, found);
      if !found {
        InfosOfAppend(result, newServer);
        result := result + [newServer];
      }
    }

    /** `__save_server`: every entry with the id now holds the given object, or it
        is appended; then the whole list is written. A failed write is swallowed:
        the list keeps the change and the file keeps its old contents. */
    method SaveServer(newServer: Server)
      modifies this, file
      ensures Infos() == ReplaceOrAppend(old(Infos()), newServer.Info())
      ensures newServer in servers
      ensures forall s :: s in servers ==> s == newServer || s in old(servers)
      ensures file.writable == old(file.writable)
      ensures file.state == if file.writable then Decoded(JArr(DictsOf(Infos()))) else old(file.state)
    {
      var saved := SavedList(servers, newServer);
      ghost var infos := InfosOf(saved);
      assert infos == ReplaceOrAppend(Infos(), newServer.Info());
      servers := saved;
      assert Infos() == infos;
      Persist();
    }

    /** The `write_json_file` call of `__save_server`: the whole list as a JSON array;
        a FileNotFoundError is logged and swallowed. */
    method Persist()
      modifies file
      ensures Infos() == old(Infos())
      ensures file.writable == old(file.writable)
      ensures file.state == if file.writable then Decoded(JArr(DictsOf(Infos()))) else old(file.state)
    {
      var data := JArr(DictsOf(InfosOf(servers)));
      var _ := file.Write(data);
    }

    /** The first half of `create_server`: the listed server with the id, or a
        new one with the given name and no bindings. */
    method ServerFor(serverId: int, serverName: string) returns (target: Server)
      ensures target.Info() == FindById(Infos(), serverId).GetOr(ServerInfo(serverId, serverName, None, None))
      ensures target in servers || fresh(target)
    {
      var server := FindServerById(serverId);
      if server.None? {
        target := new Server(serverId, serverName);
      } else {
        target := server.value;
      }
    }

    /** `create_server`: find or create the server, overwrite the binding of the
        requested kind through the setter `add_<kind value>`, then save. */
    method CreateServer(serverId: int, serverName: string, channelId: int, channelName: string,
                        channelType: ChannelType, channelRol: int)
      modifies this, servers, file
      ensures Infos() == Upsert(old(Infos()), serverId, serverName,
                                Channel(channelId, channelName, channelRol), channelType)
      ensures file.writable == old(file.writable)
      ensures file.state == if file.writable then Decoded(JArr(DictsOf(Infos()))) else old(file.state)
    {
      ghost var before := Infos();
      var target := ServerFor(serverId, serverName);
      var channel := Channel(channelId, channelName, channelRol);
      ApplySetter(target, channelType, channel);
      SaveAfterConfigure(before, Infos(), target.Info(), serverId, serverName, channel, channelType);
      SaveServer(target);
    }

    /** `reload_servers`: the list becomes what the file loads to now, discarding
        changes that only lived in memory; an exception from the load escapes and
        leaves the list as it was. */
    method ReloadServers() returns (error: Option<PyError>)
      modifies this
      ensures LoadServers(file.state).Ok? ==>
                error == None && Infos() == LoadServers(file.state).value &&
                forall i :: 0 <= i < |servers| ==> fresh(servers[i])
      ensures LoadServers(file.state).Raised? ==>
                error == Some(LoadServers(file.state).error) && servers == old(servers)
    {
      var loaded := LoadFrom(file);
      if loaded.Ok? {
        servers := loaded.value;
        error := None;
      } else {
        error := Some(loaded.error);
      }
    }
  }
}
