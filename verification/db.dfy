/** The article database as a value: what each command of the database server
    (internal/databases/databases.go) replies and leaves behind.  Tables are maps,
    SQL constraints are branches, and every file operation succeeds. */
module ArticleDb {
  import opened Options
  import opened Text

  type MsgId = string
  type Sig = string
  type TorId = string
  type GroupName = string

  datatype Perms = Perms(read: bool, reply: bool, post: bool, cancel: bool, supersede: bool)

  const ALL_PERMS := Perms(true, true, true, true, true)
  const NO_PERMS := Perms(false, false, false, false, false)

  /** One X-KW-PERMS entry of a group's card. */
  datatype CardEntry = CardEntry(torid: TorId, perms: Perms)

  /** A parsed article: the header fields the relay reads, and the content of the
      parts a newgroup message carries, its group info parts in order. */
  datatype Article = Article(messageId: MsgId, signature: Sig, from: TorId, newsgroups: string, path: string,
                             control: string, infos: seq<string>, card: seq<CardEntry>)

  datatype Row = Row(id: int, signature: Sig, refs: int)

  datatype Setting = Words(s: string) | Num(n: int) | Blob(bytes: string)

  datatype Group = Group(number: int, index: map<MsgId, int>, config: map<string, Setting>, perms: map<TorId, Perms>)

  /** `lastId` and `lastGroup` are the AUTOINCREMENT marks, `config` the node's own
      settings. */
  datatype Db = Db(me: TorId, rows: map<MsgId, Row>, lastId: int, files: map<Sig, Article>,
                   groups: map<GroupName, Group>, lastGroup: int, peers: seq<TorId>, config: map<string, Setting>)

  /** Nothing stored and nothing set. */
  function Blank(me: TorId): Db {
    Db(me, map[], 0, map[], map[], 0, [], map[])
  }

  datatype Reply =
    | Done
    | Error
    | Number(n: int)
    | Access(perms: Option<Perms>)
    | Found(num: int, article: Article)
    | Stored(article: Article)
    | Value(setting: Setting)
    | Summary(low: int, high: int, count: int)
    | Peers(list: seq<TorId>)

  /** The statement that should delete an exhausted row: as written it lacks FROM
      and fails, so the row stays and the caller sees an error. */
  datatype DeleteStatement = AsWritten | AsIntended

  // ---- articles -------------------------------------------------------------

  function StoreArticle(db: Db, a: Article): (Db, Reply) {
    if a.messageId in db.rows then (db, Error)
    else
      var id := db.lastId + 1;
      (db.(rows := db.rows[a.messageId := Row(id, a.signature, 0)], lastId := id,
           files := db.files[a.signature := a]),
       Number(id))
  }

  function SetIndex(db: Db, g: GroupName, index: map<MsgId, int>): Db
    requires g in db.groups
  {
    db.(groups := db.groups[g := db.groups[g].(index := index)])
  }

  function AddRefs(db: Db, mid: MsgId, n: int): Db
    requires mid in db.rows
  {
    db.(rows := db.rows[mid := db.rows[mid].(refs := db.rows[mid].refs + n)])
  }

  function AddArticleToGroup(db: Db, g: GroupName, mid: MsgId, id: int): (Db, Reply)
    requires g in db.groups
  {
    if mid in db.groups[g].index then (db, Error)
    else
      var d := SetIndex(db, g, db.groups[g].index[mid := id]);
      if mid in d.rows then (AddRefs(d, mid, 1), Done) else (d, Error)
  }

  /** The requested groups that the article's own header names, in request order. */
  function Requested(asked: seq<GroupName>, named: seq<GroupName>): (r: seq<GroupName>)
    ensures forall g | g in r :: g in asked && g in named
  {
    if asked == [] then []
    else (if asked[0] in named then [asked[0]] else []) + Requested(asked[1..], named)
  }

  /** One turn of the loop over those groups: delete from the index, take one
      reference off, and drop the article when none is left.  True means that
      the loop ends here with an error. */
  function CancelInGroup(db: Db, g: GroupName, mid: MsgId, sig: Sig, del: DeleteStatement): (Db, bool)
    requires g in db.groups
  {
    var d := SetIndex(db, g, db.groups[g].index - {mid});
    if mid !in d.rows then (d, true)
    else
      var e := AddRefs(d, mid, -1);
      if e.rows[mid].refs != 0 then (e, false)
      else if sig !in e.files then (e, true)
      else
        var f := e.(files := e.files - {sig});
        if del.AsWritten? then (f, true) else (f.(rows := f.rows - {mid}), false)
  }

  function CancelGroups(db: Db, gs: seq<GroupName>, mid: MsgId, sig: Sig, del: DeleteStatement): (Db, Reply)
    requires forall g | g in gs :: g in db.groups
    decreases |gs|
  {
    if gs == [] then (db, Done)
    else
      var (d, stop) := CancelInGroup(db, gs[0], mid, sig, del);
      if stop then (d, Error) else CancelGroups(d, gs[1..], mid, sig, del)
  }

  function GetArticleById(db: Db, mid: MsgId): Reply {
    if mid in db.rows && db.rows[mid].signature in db.files
    then Found(db.rows[mid].id, db.files[db.rows[mid].signature])
    else Error
  }

  function GetArticleBySignature(db: Db, sig: Sig): Reply {
    if sig in db.files then Stored(db.files[sig]) else Error
  }

  /** The groups a cancel works through, if it gets that far. */
  function CancelTargets(db: Db, from: TorId, mid: MsgId, newsgroups: string): seq<GroupName> {
    match GetArticleById(db, mid)
    case Found(_, a) => if a.from == from then Requested(Split(newsgroups, ','), Split(a.newsgroups, ',')) else []
    case _ => []
  }

  function CancelMessage(db: Db, from: TorId, mid: MsgId, newsgroups: string, del: DeleteStatement): (Db, Reply)
    requires forall g | g in CancelTargets(db, from, mid, newsgroups) :: g in db.groups
  {
    match GetArticleById(db, mid)
    case Found(_, a) =>
      if a.from != from then (db, Error)
      else CancelGroups(db, CancelTargets(db, from, mid, newsgroups), mid, a.signature, del)
    case _ => (db, Error)
  }

  /** mid's row is the first with a number above last. */
  predicate IsNextRow(db: Db, last: int, mid: MsgId) {
    && mid in db.rows && last < db.rows[mid].id
    && forall m | m in db.rows && last < db.rows[m].id :: db.rows[mid].id <= db.rows[m].id
  }

  /** What GetNextArticle(last) may reply; the reply is unique when row numbers are. */
  ghost predicate NextReply(db: Db, last: int, r: Reply) {
    if forall m | m in db.rows :: db.rows[m].id <= last then r == Error
    else exists m :: IsNextRow(db, last, m) && r == GetArticleById(db, m)
  }

  ghost function GetNextArticle(db: Db, last: int): (r: Reply) {
    if exists m :: IsNextRow(db, last, m) then
      var m :| IsNextRow(db, last, m);
      GetArticleById(db, m)
    else Error
  }

  // ---- groups ---------------------------------------------------------------

  /** The perms table after INSERT OR REPLACE of every entry in order. */
  function PermsTable(card: seq<CardEntry>): map<TorId, Perms> {
    if card == [] then map[]
    else
      var last := card[|card| - 1];
      PermsTable(card[..|card| - 1])[last.torid := last.perms]
  }

  function NewGroup(db: Db, name: GroupName, description: string, card: seq<CardEntry>): (Db, Reply) {
    if name in db.groups then (db, Error)
    else
      var config := map["description" := Words(description), "flags" := Words("flags")];
      var g := Group(db.lastGroup + 1, map[], config, PermsTable(card));
      (db.(groups := db.groups[name := g], lastGroup := db.lastGroup + 1), Done)
  }

  function Owner(g: GroupName): TorId {
    Split(g, '.')[0]
  }

  /** None is the nil the source returns when no row fits. */
  function GetPerms(db: Db, torid: TorId, g: GroupName): Option<Perms> {
    if Owner(g) == torid then Some(ALL_PERMS)
    else if db.groups == map[] then None
    else if g !in db.groups then Some(NO_PERMS)
    else
      var t := db.groups[g].perms;
      if torid in t then Some(t[torid]) else if "group" in t then Some(t["group"]) else None
  }

  ghost predicate IsLow(index: map<MsgId, int>, n: int) {
    if index == map[] then n == 0
    else (exists m :: m in index && index[m] == n) && forall m | m in index :: n <= index[m]
  }

  ghost predicate IsHigh(index: map<MsgId, int>, n: int) {
    if index == map[] then n == 0
    else (exists m :: m in index && index[m] == n) && forall m | m in index :: index[m] <= n
  }

  /** Group summary a session gets, or an error when it may not read the group. */
  ghost predicate GroupReply(db: Db, torid: TorId, g: GroupName, r: Reply) {
    var p := GetPerms(db, torid, g);
    if (p.Some? && !p.value.read) || g !in db.groups then r == Error
    else r.Summary? && IsLow(db.groups[g].index, r.low) && IsHigh(db.groups[g].index, r.high)
         && r.count == |db.groups[g].index|
  }

  ghost function GetGroup(db: Db, torid: TorId, g: GroupName): Reply {
    if r :| GroupReply(db, torid, g, r) then r else Error
  }

  function GetGroupNumber(db: Db, g: GroupName): Reply {
    if g in db.groups then Number(db.groups[g].number) else Error
  }

  function GroupConfigSet(db: Db, g: GroupName, key: string, val: Setting): (Db, Reply)
    requires g in db.groups
  {
    var group := db.groups[g];
    (db.(groups := db.groups[g := group.(config := group.config[key := val])]), Done)
  }

  function GroupConfigGetInt64(db: Db, g: GroupName, key: string): Reply
    requires g in db.groups
  {
    var c := db.groups[g].config;
    if key in c && c[key].Num? then Number(c[key].n) else Error
  }

  // ---- peers ----------------------------------------------------------------

  function PeerGroup(me: TorId, peer: TorId): GroupName {
    me + ".peers." + peer
  }

  function AddPeer(db: Db, peer: TorId): (Db, Reply)
    requires peer in db.peers || PeerGroup(db.me, peer) in db.groups
  {
    if peer in db.peers then (db, Error)
    else
      var g := PeerGroup(db.me, peer);
      var c := db.groups[g].config["ControlMessages" := Words("true")]["Feed" := Words(peer)]["LastMessage" := Num(0)];
      (db.(groups := db.groups[g := db.groups[g].(config := c)], peers := db.peers + [peer]), Done)
  }

  // ---- the node's settings --------------------------------------------------

  const DEVICE_KEY := "deviceKey"

  function ConfigSet(db: Db, key: string, val: Setting): (Db, Reply) {
    (db.(config := db.config[key := val]), Done)
  }

  /** What the typed getters read, before the conversion to their type. */
  function ConfigGet(db: Db, key: string): Reply {
    if key in db.config then Value(db.config[key]) else Error
  }

  // ---- restart --------------------------------------------------------------

  function Max(a: int, b: int): int {
    if a < b then b else a
  }

  /** The name of the row that is inserted and deleted again to move the numbers. */
  const BUMP := "DELETEME"

  /** The number bump when the tables are opened: a row with the current time as
      its number is inserted and deleted again.  It fails, and with it the
      start, when that number or the row's name is taken. */
  function Reopen(db: Db, now: int): Option<Db> {
    if BUMP in db.rows || BUMP in db.groups
       || (exists m | m in db.rows :: db.rows[m].id == now) || (exists g | g in db.groups :: db.groups[g].number == now)
    then None
    else Some(db.(lastId := Max(db.lastId, now), lastGroup := Max(db.lastGroup, now)))
  }

  // ---- the command set ------------------------------------------------------

  datatype Cmd =
    | CmdStoreArticle(a: Article)
    | CmdAddArticleToGroup(g: GroupName, mid: MsgId, id: int)
    | CmdCancelMessage(from: TorId, mid: MsgId, newsgroups: string)
    | CmdGetArticleById(mid: MsgId)
    | CmdGetNextArticle(last: int)
    | CmdNewGroup(name: GroupName, description: string, card: seq<CardEntry>)
    | CmdGetPerms(torid: TorId, g: GroupName)
    | CmdGetGroup(torid: TorId, g: GroupName)
    | CmdGetGroupNumber(g: GroupName)
    | CmdGroupConfigSet(g: GroupName, key: string, val: Setting)
    | CmdGroupConfigGetInt64(g: GroupName, key: string)
    | CmdAddPeer(peer: TorId)
    | CmdGetPeerList
    | CmdGetArticleBySignature(sig: Sig)
    | CmdConfigSet(key: string, val: Setting)
    | CmdConfigGet(key: string)
    | CmdConfigGetDeviceKey

  /** A name with a second component that is not "peers". */
  predicate Ordinary(g: GroupName) {
    |Split(g, '.')| >= 2 && Split(g, '.')[1] != "peers"
  }

  /** The command does not dereference a group database or a name component that
      is not there, where the source panics, and cancels in ordinary groups only. */
  predicate Runs(db: Db, c: Cmd) {
    match c
    case CmdAddArticleToGroup(g, _, _) => g in db.groups
    case CmdCancelMessage(from, mid, newsgroups) =>
      forall g | g in CancelTargets(db, from, mid, newsgroups) :: g in db.groups && Ordinary(g)
    case CmdGroupConfigSet(g, _, _) => g in db.groups
    case CmdGroupConfigGetInt64(g, _) => g in db.groups
    case CmdAddPeer(peer) => peer in db.peers || PeerGroup(db.me, peer) in db.groups
    case _ => true
  }

  ghost function Apply(db: Db, c: Cmd): (Db, Reply)
    requires Runs(db, c)
  {
    match c
    case CmdStoreArticle(a) => StoreArticle(db, a)
    case CmdAddArticleToGroup(g, mid, id) => AddArticleToGroup(db, g, mid, id)
    case CmdCancelMessage(from, mid, newsgroups) => CancelMessage(db, from, mid, newsgroups, AsWritten)
    case CmdGetArticleById(mid) => (db, GetArticleById(db, mid))
    case CmdGetNextArticle(last) => (db, GetNextArticle(db, last))
    case CmdNewGroup(name, description, card) => NewGroup(db, name, description, card)
    case CmdGetPerms(torid, g) => (db, Access(GetPerms(db, torid, g)))
    case CmdGetGroup(torid, g) => (db, GetGroup(db, torid, g))
    case CmdGetGroupNumber(g) => (db, GetGroupNumber(db, g))
    case CmdGroupConfigSet(g, key, val) => GroupConfigSet(db, g, key, val)
    case CmdGroupConfigGetInt64(g, key) => (db, GroupConfigGetInt64(db, g, key))
    case CmdAddPeer(peer) => AddPeer(db, peer)
    case CmdGetPeerList => (db, Peers(db.peers))
    case CmdGetArticleBySignature(sig) => (db, GetArticleBySignature(db, sig))
    case CmdConfigSet(key, val) => ConfigSet(db, key, val)
    case CmdConfigGet(key) => (db, ConfigGet(db, key))
    case CmdConfigGetDeviceKey => (db, ConfigGet(db, DEVICE_KEY))
  }
}
