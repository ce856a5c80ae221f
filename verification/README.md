# Kothawoc relay: a verified model

Kothawoc is a peer-to-peer Netnews relay. Nodes sign articles, store them, and
flood them to peers over authenticated links. This project models the relay in
Dafny and proves what the parts promise each other, up to the theorem the whole
rests on: an article posted anywhere reaches every node that clean links join to
its origin, in finitely many steps, whatever the interleaving.

`dafny verify dfyconfig.toml` checks everything.

## The parts

**The flood** (`flood*.dfy`) is a state machine over any number of nodes and
links. A node is its numbered articles and the high-water mark of its numbers; a
link is a cursor and at most one post under way. Steps are local posts, sends,
receipts, cursor writes, failed sends, posts whose sender no longer waits,
interruptions (before or after the peer has stored the article and before the
cursor is written), restarts, reconnections, new links and changed permissions.
`FloodSafety` is the invariant, `FloodPaths` the cursor and Path theorems,
`FloodProgress` termination and completeness, `FloodBreaks` what a broken
connection costs.

**The network of stores** (`refinement.dfy`, `relays*.dfy`) ties the flood to the
code. Its nodes are whole databases with their permission tables, and its steps are
the operations of the relay: a local `Post`, a turn of `SendMessages`, a peer's
`Post` of what was sent, the cursor write, failed and broken sends, restarts, new
peers through newgroup messages. Every run of it is a run of the flood, so that
completeness and termination are theorems about the stores
(`RelaysComplete.NetworkReaches`, `RelaysComplete.NetworkComplete`,
`RelaysComplete.NetworkStops`); `relay_run.dfy` is a run that meets all they ask for.

**The command queues** (`queues.dfy`) model the two bounded channels between
receiving and sending, through which nodes can wait for each other: when they are
stuck, that a jam lasts, and a run into one.

**The article store** (`db*.dfy`, `store.dfy`). `ArticleDb` gives each command of
the database server as a function on tables and files, `ArticleStores.ArticleStore`
is the object whose methods change the fields step by step and are proved equal to
those functions, and `ArticleRefs`, `ArticleRuns` and `ArticleGroups` prove what
every run keeps, `Permissions` what a group's card lets whom do, and `Replies` what
callers read back. `DbServer` models the concurrent callers, the bounded channel and
the single server goroutine.

**The relay's own objects** (`peering.dfy`, `registry.dfy`, `backend.dfy`,
`control.dfy`): `Peer.SendMessages`, `Peers`, `NntpBackend.Post`, control messages
and the peer registry. `Access` traces who is sent what, who may post where and what a
newgroup message grants back to the cards of the groups, and `NewgroupMessages` follows
that message from the node that writes it.

**The canonical message** (`mail*.dfy`). `Mail` defines the printed form, the
parser and the transfer; `MailTool.MessageTool` is the object that prints and
parses in loops; `MailLines` and `MailParse` prove the round trip and `MailHops`
the signature theorems, `SignedFields` what is signed, field by field; `SignedArticles` says that every node on the way stores the
same article, and `Authorship` whose messages can take an article away or create a
group. Bytes are characters, the multipart reader and writer are
their grammar (section 5.1.1 of RFC 2046), signatures are ideal, and media type
parsing is a function parameter.

**The handshake** (`handshake.dfy`, `handshake_io.dfy`, `handshake_talk.dfy`):
interleaved runs of honest nodes over a wire that delivers any line it likes, with
ideal signatures and new nonces; the two ends as they read and write a connection; and
the two ends talking to each other, character by character.

## What the code does and its comments do not say

The code is modelled as written. Where it misses what it is for, a lemma gives the
exact condition.

- `DELETE articles WHERE …` (databases.go:685) has no FROM and fails. After the
  last cancel the file is gone and the row stays: `ArticleRuns.CancelRowsHaveFiles`
  says exactly when, with the intended delete as the other value of a parameter,
  and `ArticleRuns.ExhaustedRowBlocks` that a cursor below such a row never moves
  again. `Witnesses.LastCancelBlocks` is a run into it: a post and its cancel.
- `cancelMessage` counts groups named in the cancel, not index rows deleted:
  `ArticleRefs.CancelRefsExact` says exactly when the count stays right, and
  `Witnesses.TwiceNamedCancel` is a run in which it does not.
- A local post that carries its own Path header can name a node that lacks the
  article. `FloodPaths.PathsSoundStep` says that this is the only step that breaks
  the Path skip, and for that article only; `FloodPaths.NewPostSound` is the
  condition on the header alone, and `FloodProgress.PresetPathLosesArticle` a run
  that loses its article that way.
- A `Post` hands a command to the node's peers before it answers, through channels of
  ten. Two nodes whose channels are full can post to each other for good:
  `Queues.StuckExactly` is the exact condition and `Queues.TwoNodesJam` a run.
- Removing a peer leaves its worker running, and connecting starts a second worker
  for a peer that has one: `Registry.SingleWorkersStep` is the exact condition, and
  `Registry.SecondWorker` a run from an empty node into two workers for one peer.
- A connection that breaks is kept until the node is started anew: every post on it
  fails and the cursor moves past the article. `FloodBreaks.BrokenLinkLoses` says which
  articles are lost, exactly and for good, and `FloodBreaks.BrokenLinkRun` is a run.
- The signature covers From and nothing compares it with the key:
  `SignedArticles.VerifiedFrom`. `Authorship.AuthorTakesAway` is the exact condition
  for a cancel to be its article's author's, `Authorship.OnlyAuthorsTakeAway` the
  theorem for a node that makes the comparison, `Authorship.OwnerCreates` both for
  newgroups, and `Impostors.StrangerTakesAway` and `Impostors.StrangerCreates` are the
  runs that the code allows.
- A message without parts whose last line is unterminated comes out of a transfer
  with another signed form: `MailHops.TransferKeepsSignature` is the exact condition and
  `MailWitnesses.UnterminatedLineChanges` such a message.
- A body line that starts with `--` and the boundary parameter, empty for a plain
  text article, is taken for a delimiter: `MailParse.PlainBodyExact`, and
  `MailWitnesses.SignatureMarkCuts` for the mark in front of a mail signature.
- `CheckControl` loses the first word of a description:
  `NewgroupText.DescriptionReadBack` and `NewgroupText.DescriptionWhole`. The
  flag that goes with permitted posting is called "moderated".
- The low mark of a group falls when an article is indexed after one with a higher
  number: `ArticleGroups.LowFallsExactly`, in the run
  `Witnesses.InterleavedPostsLowerLow`; `ArticleGroups.LowNeverFalls` is the theorem
  for posts that do not interleave.
- The server's handshake answer carries the client's id in the place of its own,
  and the client does not compare the key it gets with the address it dialled:
  `Handshake.DialledPeerAnswers` and, for the connection a peer keeps,
  `Peering.ConnectionIsPeers` give the exact condition, and
  `Handshake.WrongPeerTrusted` is a run in which a client trusts another node.

## Model

| member | source | states |
|---|---|---|
| RelaysComplete.NetworkComplete | internal/peering/peering.go:189-267 | a network of stores runs from nothing stored with posts, turns, receipts, failures, interruptions, restarts and new peers in any order and comes to rest: if one store has m, so has every store reached from it over lines on which m was never withheld, lost or refused, provided local posts of m named no other node without it in a Path of their own |
| RelaysComplete.NetworkReaches | internal/peering/peering.go:189-267 | in every state of every such run, at rest or not: if one store has m, so has every store reached from it over lines whose cursors are not below m and on which m was never withheld, lost or refused, whatever the state of all other lines |
| RelaysComplete.RestMeans | internal/peering/peering.go:99-184 | a network is at rest if and only if no node can take a step by itself, as long as GetPerms answers for the articles that are next |
| RelayRun.OnePostArrives | internal/nntpbackend/nntpbackend.go:193-350 | a run of two stores, one post from nothing stored to rest, meets everything NetworkComplete asks for, with a peer that may do nothing but read |
| RelaysComplete.NetworkStops | internal/peering/peering.go:202-266 | once nobody posts, peers, breaks a connection or restarts, the network takes at most three more steps per line and article, one per line and one per stray post |
| RelaysComplete.NetworkIsFlood | internal/nntpbackend/nntpbackend.go:193-350 | every run of the network of stores is a run of the flood, and the flood's nodes, cursors and posts under way are the stores' |
| RelaysComplete.StepSimulated | internal/nntpbackend/nntpbackend.go:193-350 | each step of the network is none, one or two steps of the flood, whose permissions are set to what the turn or the Post has answered |
| Access.TurnByCards | internal/peering/peering.go:215-246 | over every run of a store: the next article is sent to a peer if and only if its Path does not list the peer and, of the groups it names, the peer owns one or the card that made it lets the peer read it |
| Access.PostByCards | internal/nntpbackend/nntpbackend.go:278-349 | over every proper run of a store: a verified article that is no control message is posted if and only if it is new and names a group, blanks aside, that the session owns or that no entry of the group's card keeps it from posting to; it is filed in exactly these; otherwise nothing changes |
| Access.RefusedExactly | internal/nntpbackend/nntpbackend.go:217-253 | an article is not permitted if and only if it is unverified or a peer's without Path, and then not even its control message acts |
| Access.NewgroupGrants | pkg/messages/control.go:85-130 | a newgroup of an owner for a new group makes it with the rights that the message's card grants to every id and with the description read, all other answers as they were |
| Access.PostedNewgroup | internal/nntpbackend/nntpbackend.go:265-346 | so it is when Post answers, whether or not the message was filed itself |
| Access.NewgroupTwice | pkg/messages/control.go:116-120 | an owner's newgroup for an existing group fails and changes nothing |
| Access.PeeringGrants | pkg/messages/control.go:117-127 | a peering message gives its owner all rights, the peer reading, replying and posting, and nobody else any |
| Access.RegisteredBy | pkg/messages/control.go:117-127 | only a session's own newgroup for one of its peer groups registers a peer, and no other than the one it names |
| NewgroupMessages.GroupAsWritten | pkg/messages/control.go:191-253 | from CreateNewsGroupMail to every node that acts on the message: the group has the owner's title, the rights that the card grants, and the description from its second word on |
| NewgroupMessages.LastCardCounts | pkg/messages/control.go:95-114 | of several cards in a message the last one counts |
| RelaysFlood.FiledByTables | internal/nntpbackend/nntpbackend.go:278-350 | that answer is what the receiver's tables say: an article is filed if and only if it is new, verified, with a Path and its control message done, and some named group is open to the session |
| RelaysFlood.TurnMatches | internal/peering/peering.go:189-267 | a turn of SendMessages on a store is the flood's send under the permissions that store grants, cursor included |
| RelaysFlood.ReceiveMatches | internal/nntpbackend/nntpbackend.go:193-350 | a peer's Post, control message included, is the flood's receipt with the verdict that the store's answer gives |
| RelaysFlood.PostMatches | internal/nntpbackend/nntpbackend.go:193-350 | a local Post that succeeds is the flood's local post, and one that fails is no step |
| FloodProgress.FloodComplete | internal/peering/peering.go:189-267 | in any rest state of any run from empty stores, with any graph and any interleaving of posts, failures, interruptions and restarts, every node that clean links join to an origin of m holds m, if the posts of m itself named no other node without it in a Path of their own, whatever was done with other articles |
| FloodProgress.FloodReaches | internal/peering/peering.go:189-267 | the same in every state of every run, at rest or not, for routes of clean links whose cursors are past m, whatever the state of all other links |
| FloodProgress.OpenFloodReachesAll | internal/nntpbackend/nntpbackend.go:193-350 | when permissions are open to m throughout, no attempt at m fails and the posts of m are honest about its Path, at rest every node that links join to an origin holds m, whatever happened to other articles |
| FloodProgress.FloodTerminates | internal/peering/peering.go:202-266 | for every run, the number of steps the network takes by itself is bounded by the measure of the start plus a toll per post, new link and interruption |
| FloodProgress.QuietRunsAreBounded | internal/peering/peering.go:202-266 | once nobody posts, links or crashes, a run has at most three steps per link and article plus one per link and loose post |
| FloodProgress.RestMeans | internal/peering/peering.go:189-267 | the flood is at rest if and only if nothing is in flight and every link is up and has decided every article of its sender |
| Queues.StuckExactly | internal/peering/peering.go:341-370 | where no worker and no session can move, work is left undone if and only if some nodes are jammed: each with a full queue and held up by a full link whose post waits for another of them |
| Queues.JamLasts | internal/nntpbackend/nntpbackend.go:324-343 | whatever the workers do and whatever is posted, a jam stays and none of its nodes takes in the command of a stored post, waiting or yet to come, until a connection between two of them breaks |
| Queues.TwoNodesJam | internal/peering/peering.go:85-187 | from rest, local posts at two nodes that peer with each other lead into a jam |
| Queues.JamNeedsCycle | internal/peering/peering.go:85-187 | links that go down in some ranking of the nodes never jam |
| Queues.WorkersStop | internal/peering/peering.go:85-187 | with finitely many articles stored, local posts and refreshes, the workers come to a standstill |
| FloodProgress.PresetPathLosesArticle | internal/nntpbackend/nntpbackend.go:240-243 | a local post with a Path header naming the peer: at rest, with open permissions and no failure, the peer lacks the article |
| FloodBreaks.BrokenLinkLoses | internal/peering/peering.go:250-277 | in every run: of the articles that a link with a broken connection decides, but for one answered before the break, it keeps back exactly those whose Path does not name the peer, and no reconnecting or restart brings one back |
| FloodBreaks.BrokenLinkRun | internal/peering/peering.go:250-277 | everything permitted and the post plain, a broken connection leaves the peer without the article at rest |
| FloodPaths.CursorAccounting | internal/peering/peering.go:202-266 | in every reachable state the decided articles are exactly those at or below the cursor; skipped ones were not attempted, the others once, plus once for every attempt cut off before the cursor was written |
| FloodPaths.NoLateArticle | internal/databases/databases.go:1401-1424 | whatever is filed later gets a number above every existing cursor of its node, restarts included |
| FloodPaths.PathsSoundStep | internal/peering/peering.go:215-226 | a step keeps "every node in a Path of m holds m", for stored and in-flight copies, if and only if it is not a local post of m whose own Path names a node without it |
| FloodPaths.NewPostSound | internal/nntpbackend/nntpbackend.go:233-243 | a first post of m keeps it if and only if, of all nodes, its Path header names the local one at most |
| FloodPaths.PathSkipSound | internal/peering/peering.go:215-226 | in every state a run reaches in which the posts of m were honest, each peer skipped for m because of the Path holds m |
| FloodPaths.PathsAreRoutes | internal/nntpbackend/nntpbackend.go:233-254 | with plain posts every stored Path starts at the local node, has distinct hosts, follows peer links, and ends at an origin and `.POSTED` |
| FloodSafety.StepOk | internal/peering/peering.go:189-267 | every step of every node keeps the flood invariant, and no node loses or renumbers an article |
| Refinement.TurnRefinesOffer | internal/peering/peering.go:189-267 | one turn of SendMessages on the represented database is the flood's offer of the first article above the cursor: same article, same skip, same attempt |
| Refinement.NextRefines | internal/databases/databases.go:1401-1424 | GetNextArticle answers with exactly the first represented article above the cursor, Path included, and fails only when there is none |
| Refinement.FilingRefinesDelivery | internal/nntpbackend/nntpbackend.go:278-346 | filing succeeds exactly when the flood would store, and leaves exactly the flood's new node |
| Refinement.NewPathIs | internal/nntpbackend/nntpbackend.go:233-254 | splitting the new Path header gives this node, `.POSTED` for a local post, and the hosts that were there; a peer's article without Path is refused |
| Refinement.ReopenRefinesRestart | internal/databases/databases.go:103-123 | the number bump at start is the flood's restart step |
| ArticleRuns.ReferenceCounting | internal/databases/databases.go:1100-1176 | over every proper run from an empty store, restarts included: refs is the number of groups holding the article, index entries carry row numbers, and once a group has held an article its file exists exactly while some group does |
| ArticleRuns.OpValid | internal/databases/databases.go:174-313 | every proper command keeps the whole store invariant |
| ArticleRuns.NumbersGrow | internal/databases/databases.go:69-79 | over every run, with cancels and restarts, each stored article gets a number above all given before |
| ArticleRuns.CancelRowsHaveFiles | internal/databases/databases.go:674-691 | a fair cancel keeps "every row has its file" as written if and only if it leaves the article in a group; the intended delete always keeps it |
| ArticleRuns.ExhaustedRowBlocks | internal/databases/databases.go:1401-1424 | a row without its file makes GetNextArticle fail at the cursor below it after every later run |
| Witnesses.LastCancelBlocks | internal/databases/databases.go:674-691 | a run from an empty store, a post and its cancel, into such a row |
| Witnesses.TwiceNamedCancel | internal/databases/databases.go:630-672 | a run after which a cancel naming one group twice removes the file of an article another group holds |
| Witnesses.InterleavedPostsLowerLow | internal/databases/databases.go:1154-1176 | a run of two interleaved posts in which the low mark falls from 2 to 1 |
| ArticleRefs.CancelRefsExact | internal/databases/databases.go:612-698 | a cancel keeps refs equal to the number of holding groups if and only if the groups it works through are distinct and hold the article |
| ArticleRefs.CancelMessageValid | internal/databases/databases.go:612-698 | a fair cancel keeps the store invariant and every other article, and removes the file exactly when no group is left |
| ArticleRefs.StoreArticleValid | internal/databases/databases.go:1100-1133 | storing keeps the store invariant, a repeated Message-Id included |
| ArticleRefs.AddArticleToGroupValid | internal/databases/databases.go:1154-1176 | indexing keeps the store invariant and adds exactly that group to the article's |
| ArticleGroups.SummaryBounds | internal/databases/databases.go:936-995 | low and high are numbers in the group and bracket all of them, and 0 < count <= high - low + 1 when it is not empty |
| ArticleGroups.SummaryExists | internal/databases/databases.go:936-995 | every session that may read an existing group gets a summary |
| ArticleGroups.LowFallsExactly | internal/databases/databases.go:1154-1176 | indexing lowers the low mark of a non-empty group if and only if the article's number is below it |
| ArticleGroups.LowNeverFalls | internal/databases/databases.go:936-995 | over every run whose posts do not interleave, the low mark of a group that stays non-empty never falls |
| ArticleGroups.PermsTableIsLast | internal/databases/databases.go:472-484 | the insert-or-replace loop leaves, for each id, its last entry on the card and nothing else |
| ArticleGroups.NewGroupGrants | internal/databases/databases.go:372-416 | for every card and id, GetPerms on the new group is all for the owner, else the last entry for the id, else the last for `group`, else no answer; other groups keep their answers |
| ArticleGroups.PeerGroupGrants | pkg/messages/control.go:255-285 | on a peer group exactly the owner has full rights and exactly the peer read, reply and post |
| Permissions.AnswersByCard | internal/databases/databases.go:372-416 | over every run, GetPerms answers all rights to the owner, to others the entry of the group's card that decides, no answer where none does, no rights for a group that was never made, and no answer while there is no group |
| Permissions.SummaryByCard | internal/databases/databases.go:936-995 | over every run, GetGroup answers with a summary, low, high and count of the index, for exactly the groups that there are and that no entry keeps the session from reading |
| Permissions.GroupNumbers | internal/databases/databases.go:436-492 | over every run each group has a positive number of its own |
| Replies.ArticleReadBack | internal/databases/databases.go:1100-1133 | over every proper run, a stored article is read back whole by Message-Id, by signature and as the next one after the number below its own, until it is cancelled, and cannot be stored again |
| Replies.CancelTakesOut | internal/databases/databases.go:612-698 | a cancel with the article's From takes it out of exactly the groups that both headers name, the file goes with the last of its groups; another From changes nothing |
| Replies.SettingReadBack | internal/databases/databases.go:741-870 | a setting is read back as last written, the device key under its own command too |
| Replies.GroupSettingReadBack | internal/databases/databases.go:1313-1362 | so is a group's number setting |
| Replies.PeerReadBack | internal/databases/databases.go:1198-1252 | a registered peer stays on the list behind those before it, with its settings and a cursor at 0 until they are written |
| Replies.GroupNumberReadBack | internal/databases/databases.go:436-492 | GetGroupNumber answers for exactly the groups that were made, with distinct positive numbers |
| Replies.StartedAgain | internal/databases/databases.go:103-123 | a start fails exactly when the clock or the bump's name is taken; afterwards numbers of articles and groups are above the clock and all earlier ones |
| ArticleStores.ArticleStore.StoreArticle | internal/databases/databases.go:1100-1133 | the new state and reply are those of the specification: next number, a row without references, a file; a known Message-Id changes nothing |
| ArticleStores.ArticleStore.AddArticleToGroup | internal/databases/databases.go:1154-1176 | index row and reference added together, an index row already there is an error and changes nothing |
| ArticleStores.ArticleStore.CancelInGroup | internal/databases/databases.go:648-693 | one turn of the cancel loop, with the failing delete |
| ArticleStores.ArticleStore.CancelInGroups | internal/databases/databases.go:628-695 | the loop over requested groups leaves what the recursive specification says |
| ArticleStores.ArticleStore.CancelMessage | internal/databases/databases.go:612-698 | only the author's cancel of a readable article runs the loop |
| ArticleStores.ArticleStore.GetArticleById | internal/databases/databases.go:553-582 | found exactly when the row and its file are there |
| ArticleStores.ArticleStore.GetNextArticle | internal/databases/databases.go:1401-1424 | the article of a row with the least number above the cursor, an error when its file is gone or there is none |
| ArticleStores.NextReplyUnique | internal/databases/databases.go:1401-1424 | with distinct row numbers that reply is determined |
| ArticleStores.ArticleStore.GetPerms | internal/databases/databases.go:372-416 | owner, unknown group, own entry, `group` entry or no answer, as the specification orders them |
| ArticleStores.ArticleStore.NewGroup | internal/databases/databases.go:436-492 | a new number, two settings and the permission table of the card; a known name changes nothing |
| ArticleStores.ArticleStore.GetGroup | internal/databases/databases.go:936-995 | least number, greatest number and count of the index, or an error without the right to read |
| ArticleStores.ArticleStore.AddPeer | internal/databases/databases.go:1198-1252 | the peer's group gets its three settings and the peer joins the list; a registered peer changes nothing |
| ArticleStores.ArticleStore.Reopen | internal/databases/databases.go:103-123 | numbers move up to the clock; a taken number or name fails the start |
| ArticleStores.ArticleStore.GetArticleBySignature | internal/databases/databases.go:511-534 | the file of that name, or an error |
| ArticleStores.ArticleStore.ConfigSet | internal/databases/databases.go:741-750 | the one setting is replaced, nothing else |
| ArticleStores.ArticleStore.ConfigGet | internal/databases/databases.go:767-828 | the setting last written under the key, or an error |
| ArticleStores.ArticleStore.Dispatch | internal/databases/databases.go:174-313 | each command runs its own handler on the state and yields that handler's reply |
| DbServer.Linearizable | internal/databases/databases.go:174-313 | every concurrent history equals the sequential run of the store in channel order, with exactly one reply per served call, to its own command, in an order that respects real time |
| DbServer.NeverStuck | internal/databases/databases.go:1083-1098 | a call that has not returned can go on or waits for one that can |
| DbServer.ConcurrentReferenceCounting | internal/databases/databases.go:174-313 | reference counts are exact in every state of a concurrent history of proper commands |
| DbServer.ChannelOfTen | internal/databases/databases.go:162 | never more than ten commands wait in the channel, and a caller gets in as long as there are fewer |
| Peering.Peer.SendMessages | internal/peering/peering.go:189-267 | the turn is decided by connection, cursor, Path and permissions as specified, and the cursor moves to the article's number in every case but an idle turn; nothing else changes |
| Peering.Peer.Connect | internal/peering/peering.go:269-307 | a connection is kept exactly when somebody was reached and the handshake trusted a key, with that key at its far end, and never given up again |
| Peering.ConnectionIsPeers | internal/peering/peering.go:288-306 | in every run of the handshake, the dialled peer is at the far end of the kept connection if and only if the id of the trusted key is the peer's, a test that Connect leaves out |
| Peering.Peer.PathNamesPeer | internal/peering/peering.go:215-226 | the loop finds the peer if and only if the Path lists it |
| Peering.Peer.MayReadSome | internal/peering/peering.go:228-237 | the loop allows exactly when one of the named groups is readable to the peer |
| Peering.Peers.Connect | internal/peering/peering.go:341-363 | an entry and one more worker for every registered id, also where there is one |
| Peering.Peers.AddPeer | internal/peering/peering.go:341-425 | the node itself and registered ids are refused without effect; otherwise the peer is registered and connected |
| Peering.Peers.RemovePeer | internal/peering/peering.go:371-375 | only the entry goes: registration and worker stay; an id without an entry panics |
| Registry.SingleWorkersStep | internal/peering/peering.go:348-363 | an operation keeps one worker per peer if and only if it is not a connect that finds a worker |
| Registry.AddsExactly | internal/peering/peering.go:383-415 | a peer is added if and only if it is another node and not registered |
| Registry.RemovedComesBack | internal/peering/peering.go:346-375 | connecting gives every registered peer an entry; a removed one comes back with one more worker |
| Registry.SecondWorker | internal/peering/peering.go:341-414 | a run from an empty node, a local newgroup before the connect at the start, into two workers for one peer |
| Backend.PostFilesExactly | internal/nntpbackend/nntpbackend.go:278-346 | a successful Post stores once and indexes in precisely the named, existing groups the session may post to, under one number, refs equal to their number, repeats or not, other articles untouched |
| Backend.NntpBackend.Post | internal/nntpbackend/nntpbackend.go:193-350 | unverified articles and peers' articles without Path change nothing; otherwise the control message acts first, then the article with its new Path is filed |
| Backend.NntpBackend.PostableGroups | internal/nntpbackend/nntpbackend.go:278-306 | the loop collects exactly the named, existing groups open to the session |
| Backend.NntpBackend.AddToGroups | internal/nntpbackend/nntpbackend.go:331-343 | in any order, the loop indexes the article in every group once and counts it once each |
| Backend.NntpBackend.CheckControl | pkg/messages/control.go:65-132 | cancel and newgroup act on store and peers as the specification says; anything else changes nothing |
| Registry.RegistryInvariant | internal/peering/peering.go:341-425 | over every run of control messages from any session, commands, connects, removals and restarts: registered peers have configured groups, none twice, never the node itself, every entry has a worker and every worker a registered peer |
| Registry.LocalPeering | pkg/messages/control.go:117-127 | a local newgroup for a new peer group registers and connects exactly that peer with its cursor at 0, and fails without registering for the node's own id |
| NewgroupText.DescriptionReadBack | pkg/messages/control.go:191-253 | for every single-line description and space-free name, whatever the posting status, the receiver reads the words from the second on |
| NewgroupText.LastInfoCounts | pkg/messages/control.go:95-113 | behind any other info parts, the last one counts |
| NewgroupText.DescriptionWhole | pkg/messages/control.go:95-116 | the description comes back whole if and only if it is empty |
| NewgroupText.ReadInfoParts | pkg/messages/control.go:95-113 | the loop over the parts ends with the last group info part's description, empty without one |
| NewgroupText.TitleIsOwned | pkg/messages/control.go:203-209 | a name with or without the owner's id in front gives the same title |
| MailParse.PrintParse | pkg/messages/messages.go:139-299 | for every well-formed message, reading the print from a file gives the printed fields, preamble and parts back up to line ends; after a transfer too, if the message is of whole lines |
| MailParse.PlainBodyExact | pkg/messages/messages.go:250-256 | a body is read as it stands if and only if no complete line starts like a delimiter |
| MailParse.ReadPartLines | pkg/messages/messages.go:264-292 | the multipart reader undoes the multipart writer for any number of parts, under both line ends |
| MailHops.SignaturesSurvive | pkg/messages/messages.go:84-203 | for every well-formed message of whole lines and every sequence of hops, each with transfer, Path edit, storing and any order of unsigned fields, the text Verify rebuilds is the text Sign signed |
| MailHops.PeerVerifies | internal/nntpbackend/nntpbackend.go:218-221 | what a peer receives verifies if and only if what was sent does |
| SignedFields.VerifiesExactly | pkg/messages/messages.go:50-137 | a signed well-formed message, or whatever it has become with its signature kept, verifies if and only if each of the thirteen fields, the preamble and the parts are those that were signed |
| SignedFields.OtherFieldsFree | pkg/messages/messages.go:57-71 | any other field but the signature may be changed, added or removed |
| SignedFields.SignersArticle | internal/nntpbackend/nntpbackend.go:217-221 | control, groups, Message-Id, From, description parts and card of a verified article are its signer's |
| SignedFields.SignSigns | pkg/messages/messages.go:84-107 | Sign puts in key, id and a signature that verifies, and changes nothing else |
| MailHops.SignatureCovers | pkg/messages/messages.go:57-71 | equal signed forms mean equal signature fields, preamble and parts up to line ends |
| MailHops.TransferKeepsSignature | pkg/messages/messages.go:139-203 | one transfer keeps a well-formed message's signed form if and only if the message has parts or its preamble is empty or ends in a line end |
| MailWitnesses.PrintsField | pkg/messages/messages.go:139-203 | a header field is printed and signed as key, colon, blank and value, with CRLF, a blank line and the body |
| MailWitnesses.PartsPrinted | pkg/messages/messages.go:181-200 | two parts are printed behind the preamble with their delimiters; a single part is not printed |
| MailWitnesses.PanicsExactly | pkg/messages/messages.go:250-256 | reading panics if and only if the first of several lines starts like a delimiter |
| MailWitnesses.LookalikeKept | pkg/messages/messages.go:264-292 | a line in a part that only starts like a delimiter is content |
| MailWitnesses.UnterminatedLineChanges | pkg/messages/messages.go:205-242 | a message of one unterminated line comes back with another signed form |
| MailWitnesses.SignatureMarkCuts | pkg/messages/messages.go:250-256 | a text/plain body is cut at a line of two dashes and a blank |
| SignedArticles.ReceivedArticle | internal/nntpbackend/nntpbackend.go:193-221 | a peer takes in the article that was sent, with the signature verdict of the message that was sent |
| SignedArticles.CrossedArticle | internal/nntpbackend/nntpbackend.go:233-254 | what a peer reads back from its file is that article with its own Path prepended, as the backend files it |
| SignedArticles.VerifiedFrom | pkg/messages/messages.go:84-137 | a message that is signed with any From at all verifies; Sign puts in its own id |
| Authorship.TakerHasFrom | internal/databases/databases.go:623-626 | over every run of posts, a message that takes a posted article out of a group or its file away is verified and has the article's From |
| Authorship.AuthorTakesAway | internal/databases/databases.go:623-626 | as the code is, such a message's key is the article's author's if and only if its own From is the id of its key |
| Authorship.OnlyAuthorsTakeAway | internal/nntpbackend/nntpbackend.go:217-221 | with From compared to the key in Approved at receipt, over every run the key of whatever takes an article away is the key that signed it |
| Authorship.OwnerCreates | pkg/messages/control.go:76-93 | a group that a message creates is its key's own if and only if its From is the id of its key, which the comparison ensures |
| Impostors.StrangerTakesAway | internal/databases/databases.go:612-698 | two posts to one group, an article and a stranger's verified cancel of it, after which the article is gone |
| Impostors.StrangerCreates | pkg/messages/control.go:76-93 | a stranger's verified newgroup creates a group of another's |
| MailTool.MessageTool.WriteRaw | pkg/messages/messages.go:139-203 | the buffer is the printed message: signature fields in their order, the others once each unless signing, body; the preamble keeps CRLF line ends |
| MailTool.MessageTool.WriteBody | pkg/messages/messages.go:181-200 | preamble with CRLF, then two or more parts with delimiters |
| MailTool.WriteParts | pkg/messages/messages.go:187-199 | the writer's loop prints every part and the closing delimiter |
| MailTool.WriteRest | pkg/messages/messages.go:163-179 | whatever order the map yields, exactly the keys not yet written are printed, each once |
| MailTool.MessageTool.Sign | pkg/messages/messages.go:84-107 | afterwards the object is the signed message and the text is its print |
| MailTool.MessageTool.Verify | pkg/messages/messages.go:113-137 | the verdict on the form rebuilt from the current fields |
| MailTool.MessageTool.ParseBody | pkg/messages/messages.go:205-299 | preamble and parts are those of the grammar; without a delimiter the parts stay; a delimiter on the first line panics |
| MailTool.PartsOneByOne | pkg/messages/messages.go:267-292 | calling NextPart until it fails yields the grammar's parts |
| Handshake.ServerAgreement | internal/torutils/torutils.go:125-192 | when a server run has accepted an honest client's key, exactly one client run sent the request it read; it is the client's, it signed exactly the line the server sent, and it matches no other server run |
| Handshake.ClientAgreement | internal/torutils/torutils.go:71-117 | when a client run's check passed on an honest server's key, exactly one server run, of that key, on the client run's own request, sent the fields it read |
| Handshake.MutualAgreement | internal/torutils/torutils.go:59-67 | when both have succeeded the two runs agree line for line |
| Handshake.UndisturbedCompletes | internal/torutils/torutils.go:59-67 | from any state, an honest client and server that hear each other pass every check and match |
| Handshake.DialledPeerAnswers | internal/torutils/torutils.go:71-117 | in every run, the peer that a client run dialled answered it if and only if the answer's first field decodes to the dialled key, and then it alone did |
| Handshake.WrongPeerTrusted | internal/torutils/torutils.go:59-67 | a run in which a client dials one peer, is answered by another, passes every check and is accepted |
| Handshake.WireInjective | internal/torutils/torutils.go:92-95 | a text determines its fields |
| HandshakeIo.Conn.ReadUntilLf | internal/torutils/torutils.go:28-50 | a line is returned if and only if an LF is among the first 1025 characters; what was read is off the input, and a failed read returns it |
| HandshakeIo.Conn.ServerHandshake | internal/torutils/torutils.go:125-192 | every way the run can end, with exactly what was sent and returned |
| HandshakeIo.Conn.ClientHandshake | internal/torutils/torutils.go:71-117 | every way the run can end, the index panic and the unterminated OK included, whatever address was dialled |
| HandshakeTalk.EndsAgree | internal/torutils/torutils.go:59-192 | with keys, ids, nonces and signatures of their real lengths, each end writes exactly what the other reads: the server accepts the client's key and the client trusts the server's |
| HandshakeTalk.LineLength | internal/torutils/torutils.go:28-50 | a line of 1024 characters is read and one of 1025 is not |
| HandshakeTalk.ServerAcceptsExactly | internal/torutils/torutils.go:125-192 | for every input, a key is accepted if and only if the first line is four words, an allowed key, its id, a nonce and its signature of the three, and the second line its signature of the answer |
| HandshakeTalk.ClientTrustsExactly | internal/torutils/torutils.go:71-117 | for every input, a key is trusted if and only if the first line is the key, two words and its signature of these and the request, and OK follows, terminated or not |
| HandshakeIo.AcceptTakesSteps | internal/torutils/torutils.go:125-192 | an accepting ServerHandshake is a Serve and a Finish step of the protocol |
| HandshakeIo.TrustTakesSteps | internal/torutils/torutils.go:71-117 | a trusting ClientHandshake is a Reply step, signing exactly what was read |

## Left out

- Tor, dialling, listening, `client.go` and `cmd/`: wiring; a dial's outcome is a parameter.
- SQLite, the file system and pragmas: tables and files are maps and every operation on them succeeds, so a crash between inserting a row and writing its file is not modelled.
- Ed25519, base32, hex, vCard and `mime.ParseMediaType`: ideal signatures, inverse codecs and a function parameter; a key of the wrong length ends a handshake run.
- `keytool.go`, `serror`, logging, timers, `GenID`, the debug files: nothing the properties depend on.
- The go-nntp library: a post travels as the block of whole lines of section 3.1.1 of RFC 3977, receipt is one atomic step of the flood, and dot-stuffing is undone.
- int64 overflow of article numbers and reference counts: numbers are unbounded.
- `listGroups` and `listArticles`: streaming goroutines outside the command server's order.
- ArticleStores.ArticleStore.Dispatch: without the streaming commands (`listGroups`, `listArticles`) and the subscription update, whose wrapper panics on its reply; the typed setting getters are one command, before the conversion of the stored value.
- DbServer.Linearizable: for the commands of `ArticleStores.ArticleStore.Dispatch`.
- Sendme, subscriptions and checkgroups: builder and reader disagree, and the filter is not implemented.
- Backend.NntpBackend.CheckControl: not for sendme messages, nor where the source panics on missing words or parts.
- ArticleStores.ArticleStore.CancelMessage: not for cancels in peer groups, which call the unfinished `RemovePeer` from inside the database server, nor for a group without a second name component, on which the source panics.
- ArticleStores.ArticleStore.GetArticleById: not for Message-Ids that are decimal numbers, which the source looks up by row number.
- ArticleStores.ArticleStore.GetGroup: without the description and posting status of the reply.
- `BackendDbs.CancelMessage` returns no error whatever happened: `Registry.CheckControl` ignores the reply accordingly.
- Two articles with one signature: files are named after signatures, and a signature is taken to be new when an article is stored, as ideal signatures of different articles are.
- The group table, the open group databases and their numbers: one map from name to group.
- Header fields on several lines, keys not in canonical form and lines without a key: the parser reads one line per field, keys are taken as they are, and a line that starts with a colon, which the standard library skips, makes the header unreadable here.
- Quoted-printable parts: the standard library's reader decodes them.
- A preamble with `%`: the source uses it as a format string, and `MailTool.MessageTool.Printable` rules it out.
- A single part: printed as none, as the source does; `Mail.Wf` asks for none or at least two.
- Multipart corner cases of the standard library: a closing delimiter without a line end, and a body whose delimiters mix line ends.
- Backend.NntpBackend.Post: the signing of a local article without a signature and the signature verdict are a parameter; `MailHops.SignaturesSurvive` and `SignedArticles.ReceivedArticle` say what the verdict is.
- Peering.Peer.SendMessages: requires that GetPerms answers for every group of the next article, because the source dereferences the answer.
- ArticleRuns.ReferenceCounting: runs are proper, that is signatures are new, what is indexed has its row and file under that number, and cancels are fair; `ArticleRefs.CancelRefsExact` shows that the last cannot be dropped.
- Handshake.ClientAgreement: agreement is on the three signed fields of the answer; the fourth may be another spelling of a valid signature, and then the server's own check fails.
- Handshake.ServerAgreement: honest keys sign nothing but handshake lines and texts with line ends, which article forms are.
- FloodProgress.FloodComplete: the local posts of the article itself are honest, that is their own Path names no other node without it; `FloodProgress.PresetPathLosesArticle` shows that this cannot be dropped.
- RelaysComplete.NetworkReaches: a line leads to the peer that was dialled; `Peering.ConnectionIsPeers` is the condition.
- Authorship.OnlyAuthorsTakeAway: messages come in through Post; the comparison is not in the code.
- RelaysComplete.NetworkComplete: runs without cancels and sendme messages, and where nothing panics; a new article's signature is its own; one worker serves each peer, as `Registry.SingleWorkersStep` describes, and the same of each line as for `RelaysComplete.NetworkReaches`.
- Queues.StuckExactly: the channels carry nothing but commands to look for articles; the database server and the commands to add and remove peers are not part of it.
- FloodProgress.FloodTerminates: nothing is cancelled during a flood; a cancel that empties a row stops the links below it.
- FloodPaths.CursorAccounting: nothing is cancelled during a flood, as the theorem is about states without deletes, and one worker serves each link; a peer that was removed or connected twice has a worker too many.
