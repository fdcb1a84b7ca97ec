# A verified model of the socket chat

The chat server keeps accounts, friendships and room histories in MongoDB and loads the data of
logged-in users into Redis. A message goes into Redis only; a logout writes the user back and saves
the rooms the user leaves without a loaded member. Two clients that befriend each other get a room of
two, and each side of the new friendship is recorded in whichever store holds that user. Packets
between client and server are `;`-separated texts of at most 1024 bytes.

This project models that system and proves what its users rely on:

* both stores together behave like one chat service without a cache (`Chat`, `Store`, `Simulation`,
  `Theorems`, `Provenance`), and the handlers, written as methods over two store objects, take exactly
  those steps, packet after packet (`Server`, `Dispatch`, `FrontDoor`, `Sockets`);
* logouts that overlap command by command still save every room, and senders that overlap lose no
  message id and leave coherent stores; when overlapping friend requests keep the invites in order is
  said exactly (`Logouts`, `Senders`, `Invites`);
* packets printed on one side are read back on the other, histories are packed without loss, the
  transfer after a login brings every room to a client that acknowledges each, and the client's table is
  an append-only log of what arrived (`Text`, `Codec`, `ClientPackets`, `Packets`, `Rooms`, `Client`,
  `History`, `Transfer`); `Delivery` and `Arrival` join these to the stores, from a keyboard to the
  history and from the history to a screen;
* the client's pending requests report one verdict each, whatever the threads' order (`Requests`), and
  transfer, packet handler and requests together are run step by step through a login and a sent
  message (`Recognize`, `LoginRun`, `Sending`).

## How it is organised

| file | content |
|---|---|
| `Chat.dfy` | the service: one profile per user, one history per room, its events and its invariant |
| `Store.dfy` | MongoDB documents and Redis keys as values, and what every event does to both |
| `Simulation.dfy` | the abstraction, the coherence relation, and the forward simulation event by event |
| `Theorems.dfy` | durability, mutual friendship, the index between lists and rooms, load and logout |
| `Provenance.dfy` | every stored message was sent over a session that then belonged to the user it names; refused logins |
| `Server.dfy` | `MongoStore`, `RedisStore`, `ChatServer`: the commands, loops and handlers as methods |
| `Dispatch.dfy` | the front door: packets recognized and handed on, over whole runs of inputs |
| `Scenario.dfy` | one concrete run from empty stores, and what goes wrong from where it ends |
| `Sockets.dfy` | whom a closed connection logs out |
| `Logouts.dfy`, `Senders.dfy`, `Invites.dfy` | interleavings at the granularity of store commands |
| `Text.dfy`, `Codec.dfy`, `ClientPackets.dfy`, `Packets.dfy` | C strings, parsers, printers, packing |
| `Rooms.dfy`, `Client.dfy` | the client's table of rooms as a value with its runs, and as an object |
| `History.dfy` | a printed history in the client, packet by packet, during the login and after it |
| `Recognize.dfy`, `LoginRun.dfy` | the client's room and message cases, and a login from first room to last |
| `Transfer.dfy`, `Requests.dfy` | the room transfer, pending requests |
| `FrontDoor.dfy` | what each printed packet asks for, and when it is answered ok |
| `Sending.dfy` | the verdict on a sent message and the verdicts of a transfer, in the client |
| `Delivery.dfy`, `Arrival.dfy` | theorems that cross packets and stores |

A handler method in `Server` states its whole effect as a step of `Store`; the lemmas of `Simulation`
then say what such a step means for the service. The guards the code relies on without checking them
are `Fits` (a document read from MongoDB has at most 48 friends and 32 chats) and `Fresh` (nobody
loads a user who is loaded); `LoadIsSafe` states exactly what happens when the second one is broken.

## Where the code does less than it seems to

* A second data request for a loaded user appends the user's lists to themselves and replaces their
  counts. It is harmless if and only if both lists are empty (`Theorems.LoadIsSafe`); a run from empty
  stores that ends in harm is `Scenario.SecondLoadBreaks`.
* A continuation packet has one semicolon too many behind its prefix. While the login is pending the
  client refuses it for texts without semicolons (`Codec.ContinuationPacket`), and if it does so with the
  login still waiting, the login is reported as failed (`LoginRun.ContinuationFailsLogin`). Afterwards
  the client stores it as a wrong message with id 0 (`History.LiveContinuation`).
* The login is reported as soon as the first history packet is read, and a packet of several messages
  read after that gives only its first (`History.LiveBatch`). So a history of carriable texts fills its
  room if and only if it is one packet and that packet is read while the login is pending, or is one
  message (`History.ArrivesExactly`, `Arrival.HistoryArrives`).
* The client acknowledges a room only while its login is pending, and the server sends the next room only
  when the last is acknowledged. The transfer reaches its end if and only if the login slot is still
  taken at every room packet (`LoginRun.EndsExactlyWhenHeld`); a run in which the first history costs the third room is
  `LoginRun.ThirdRoomNeverArrives`.
* A friendship accepted during a transfer lengthens the list that the server reads at each reply; the
  reply to the last old room is then a failure and not the end (`Transfer.GrownListFails`).
* The batch branch counts by semicolons but decodes by printed lengths. Without a limit on the amount a
  batch is read back exactly if and only if no text is empty or holds a semicolon
  (`Codec.FirstPacketExact`), although the server accepts both kinds of text and delivers the latter live
  (`Codec.LiveRoundTrip`).
* Two users who ask each other at the same time can end with both invites pending and no way to accept
  (`Invites.OppositesCross`, `Invites.CrossedIsForGood`); the invite table stays one-way if and only if
  every push finds no invite between the two (`Invites.OneWayExactly`).
* A closed connection logs out one session. It covers everybody loaded over the socket if and only if
  the socket's entry leads to each of them (`Sockets.ClosingExactly`).
* A message can be saved and then overwritten by an older copy of its room if and only if a logout
  holds such a copy when the message arrives (`Logouts.LostExactlyWhenHeld`, and from empty stores
  `Scenario.MessageLost`); without such messages nothing is lost (`Logouts.LastLeaverSaves`).
* Overlapping senders are listed in id order if and only if the least id drawn is always pushed first
  (`Senders.OrderedIffLeastFirst`, with a run that is not in `Senders.OrderCanSwap`). Coherence and
  durability do not depend on it (`Senders.TurnsAreGood`).
* Session keys are written before their uniqueness is known. A refused login leaves the stores alone if
  and only if its credentials are wrong or the key was the same user's (`Provenance.RefusedLogin`);
  otherwise the key changes hands, and the first user's client then writes in the second user's name
  (`Provenance.TakenKeySpeaksForOther`, and from empty stores `Scenario.TakenKey`).
* A message that arrives live while the client's login is pending is taken for a batch, and dropped when
  the room's announced amount has arrived (`Rooms.LoginFillsUp`).
* A name of 20 characters is accepted for an account and arrives at other clients without its last
  character (`Codec.DecodePart`, `Arrival.HistoryArrives`).
* A user whose name is "Unknown" can register and log in, but every data request is refused, because
  that is also how a missing name reads (`Theorems.LoadIsSafe`, `Chat.Step`).
* The echo of a message sent without text is stored by the server and reported as failed by the client
  (`Sending.EmptyEchoFails`).
* The project's own description announces group conversations; the handlers for creating and removing
  rooms are empty, so every room has exactly two members, which the invariant `Chat.Pairs` records.

## Model

| member | source | states |
|---|---|---|
| `Theorems.ServerIsOneService` | server/data/bridge.c:18-128 | From empty stores, every guarded run of account creations, logins, loads, messages, friend requests and logouts leaves both stores coherent and is, seen through them, a run of the single service. |
| `Simulation.StepSimulates` | server/data/bridge.c:18-128 | Every event on MongoDB and Redis is the same event on the service without a cache, and keeps coherence and the service invariant; loading and unloading only change a flag. |
| `Theorems.Durable` | server/data/bridge.c:92-124 | After any guarded run MongoDB holds a prefix of the history the service promises for every room, and all of it once no member of the room is loaded (texts as the stores read them back). |
| `Theorems.HistoryGrows` | server/data/redis/redis_room.c:15-72 | No run takes back, changes or reorders an accepted message, or changes the members of a room. |
| `Theorems.FriendshipIsMutual` | server/handlers/event_handler.c:572-679 | Taking each list from the store that holds it, v occurs among the friends of u as often as u among those of v, and that is the number of rooms of exactly these two. |
| `Theorems.ListsIndexRooms` | server/handlers/event_handler.c:594-674 | A room is in the chat list of a user, once, if and only if the user is one of its members. |
| `Theorems.LogoutRunsToTheEnd` | server/data/bridge.c:86-97 | The logout of a loaded user finds a socket and all the chats in Redis, so it never returns early. |
| `Theorems.LoadThenLeave` | server/data/bridge.c:18-128 | Loading a user and logging out again leaves every MongoDB document as it was: friends survive the trip from ids to names and back, rooms the trip through lists and hashes. |
| `Theorems.LeaveTwice` | server/handlers/event_handler.c:697-712 | A second logout with the same session changes nothing. |
| `Theorems.LoadIsSafe` | server/data/redis/redis_user.c:99-122 | A load leads to a coherent state if and only if the user was not loaded or both stored lists are empty. |
| `Theorems.MongoAloneSuffices` | server/data/bridge.c:67-72 | With nobody loaded, an empty Redis over the same MongoDB shows the same users, rooms and histories. |
| `Theorems.AcceptConsumesOneInvite` | server/handlers/event_handler.c:571-577 | An acceptance removes exactly the one pending invite it answers and no other. |
| `Provenance.HistoriesAreAuthentic` | server/handlers/event_handler.c:193-500 | Over every run from the start a session belongs to the user of the last login on its key that was right when it happened, and every message of every history was sent over a session that belonged to its sender at that moment. |
| `Provenance.StoredMessagesAreAuthentic` | server/data/bridge.c:92-124 | Every message MongoDB holds after a run was sent in that run to that room, with that date and text up to 383 characters, over a session that then belonged to the user it names; it is number i + 1 of its room at place i. |
| `Provenance.SessionNext` | server/modules/user_service.c:61-81 | A login that is right takes its key, whoever had it; no other event touches a session. |
| `Provenance.StepKeepsSessions` | server/modules/user_service.c:61-81 | Every event keeps each session the property of the last right login on its key. |
| `Provenance.RefusedLogin` | server/data/redis/redis_session.c:46-70 | A login answered with a failure leaves the stores as they were if and only if the credentials are malformed or wrong or the drawn key already belongs to that user. |
| `Provenance.TakenKeySpeaksForOther` | server/data/redis/redis_session.c:46-70 | When a refused login of another loaded user takes a key over, what is sent with the key is stored under that other user. |
| `Chat.StepKeepsInv` | server/handlers/event_handler.c:173-712 | Ids in range, distinct names, rooms of two, chat lists indexing members, friends counting shared rooms, invites never doubled, mutual or to oneself, message ids 1 to n once each and by members: every event keeps all of it. |
| `Chat.RunKeepsInv` | server/handlers/event_handler.c:173-712 | The same over whole runs. |
| `Chat.BefriendKeepsFriends` | server/handlers/event_handler.c:579-674 | A new friendship keeps the agreement between the friend lists and the rooms two users share. |
| `Chat.BefriendKeepsIndex` | server/handlers/event_handler.c:594-674 | A new friendship keeps chat lists and member lists in agreement and without repetition. |
| `Chat.BefriendKeepsInvites` | server/data/redis/redis_user.c:69-93 | Accepting keeps invites unrepeated, never to oneself and never pending both ways. |
| `Chat.InviteKeepsInvites` | server/handlers/event_handler.c:565-571 | A new invite keeps them so, because repeated and answered invites are caught first. |
| `Invites.OneWayExactly` | server/handlers/event_handler.c:565-571 | Over every interleaving of friend requests command by command, the invite table stays without repetition and without mutual invites if and only if every push finds no invite between its two users. |
| `Invites.ApartIsOneWay` | server/data/redis/redis_user.c:18-67 | It does so whenever no two requests between the same two users overlap. |
| `Invites.ApartAccepts` | server/data/redis/redis_user.c:69-93 | And then each acceptance removes exactly one invite. |
| `Invites.OppositesCross` | server/handlers/event_handler.c:559-687 | From any state without an invite between two users: a run of their two overlapping requests after which both invites are pending. |
| `Invites.CrossedIsForGood` | server/handlers/event_handler.c:565-568 | With both invites pending every further request between the two is taken for a repetition, so neither can accept. |
| `Invites.AloneIsAsk` | server/handlers/event_handler.c:559-687 | One request alone, command by command, does to the invites what the atomic step does. |
| `Chat.CreateKeepsFriends` | server/modules/user_service.c:16-36 | A new account shares no room and is nobody's friend. |
| `Chat.SendKeepsInv` | server/handlers/event_handler.c:459-500 | An accepted message is numbered next, is written by a member, and disturbs nothing else. |
| `Simulation.CreateSimulates` | server/modules/user_service.c:16-36 | Account creation in MongoDB is account creation of the service; loaded users keep their names and ids. |
| `Simulation.LogInSimulates` | server/handlers/event_handler.c:193-240 | A login is a login of the service; only sessions and the online set change. |
| `Simulation.LoadSimulates` | server/data/bridge.c:18-64 | A load imports each missing room once and changes nothing a user of the service can see. |
| `Simulation.SendSimulates` | server/handlers/event_handler.c:435-500 | A message request appends to the history of the service exactly when a loaded member of the room sends it. |
| `Simulation.AskSimulates` | server/handlers/event_handler.c:530-691 | A friend request invites, accepts or does nothing as the service does, with the friend in either store. |
| `Simulation.AcceptUsers` | server/handlers/event_handler.c:579-674 | An acceptance adds one friend and one chat to the profiles of both sides, online or offline, and to nobody else's. |
| `Simulation.AcceptRooms` | server/modules/user_service.c:39-59 | The new room is born empty and equal in both stores; all other rooms stay as they were. |
| `Simulation.LeaveSimulates` | server/data/bridge.c:72-128 | A logout keeps every profile and history and only unloads the user. |
| `Simulation.LeftRooms` | server/data/bridge.c:92-124 | After a logout every cached room extends its MongoDB copy, and equals it when no member is loaded any more. |
| `Simulation.ImportedRoom` | server/data/redis/redis_room.c:124-146 | A room read from MongoDB and written to Redis lists the same messages and, read again, gives the same document. |
| `Simulation.ImportedLists` | server/data/mongodb/mongodb_room.c:54-187 | Whatever the document holds, the messages come into Redis with their texts cut. |
| `Store.WrittenOnce` | server/data/redis/redis_room.c:213-234 | A room may be written to Redis if and only if nothing is listed under its keys: the lists grow, the amounts are replaced. |
| `Simulation.NamesTrip` | server/data/redis/redis_user.c:112-116 | Friends listed by name in Redis come back as the ids they were, since names are distinct. |
| `Simulation.GoodIsSound` | server/data/redis/redis_user.c:125-179 | In every reachable state the stored counts are the sizes of the stored lists, which is what the readers allocate by. |
| `Server.MongoStore.UserGetId` | server/data/mongodb/mongodb_user.c:47-82 | Returns the id of the user with the name, or -1 exactly when there is none. |
| `Server.MongoStore.UserRead` | server/data/mongodb/mongodb_user.c:116-232 | Returns the user with the name, with at most 48 friends and 32 chats, or nothing exactly when there is none. |
| `Server.MongoStore.UserWrite` | server/data/mongodb/mongodb_user.c:234-247 | Replaces or inserts the document under its id; every other document stays. |
| `Server.MongoStore.AddChatToUser` | server/data/mongodb/mongodb_user.c:250-271 | Pushes one chat and raises the count by one for that user only. |
| `Server.MongoStore.RoomRead` | server/data/mongodb/mongodb_room.c:54-187 | Returns the room with every text cut to 383 characters. |
| `Server.MongoStore.RoomWrite` | server/data/mongodb/mongodb_client.c:157-200 | Replaces or inserts the room under its id; every other room stays. |
| `Server.RedisStore.UserWrite` | server/data/redis/redis_user.c:99-122 | Replaces the counts, appends the friends as names and the chats as ids, keeps the socket. |
| `Server.RedisStore.UserRead` | server/data/redis/redis_user.c:125-179 | Returns the user behind the session with friends as ids, or nothing for an unknown session or unloaded user. |
| `Server.RedisStore.AddFriend` | server/data/redis/redis_user.c:215-233 | Appends one friend name and raises the count by one. |
| `Server.RedisStore.Offline` | server/data/redis/redis_user.c:327-419 | Removes the user's keys, place online and socket entry, as `Sockets.LeavesNothingBehind` describes, and reports a missing socket. |
| `Server.RedisStore.SessionWrite` | server/data/redis/redis_session.c:46-70 | Sets the session and reports success exactly when the key was new. |
| `Server.RedisStore.RoomWrite` | server/data/redis/redis_room.c:213-234 | Replaces the amounts and appends members and messages. |
| `Server.RedisStore.RoomRead` | server/data/redis/redis_room.c:285-325 | Returns the room as listed, every text cut to 383 characters. |
| `Server.RedisStore.RoomBelongsToUser` | server/data/redis/redis_room.c:252-283 | True exactly when the room exists and is among the chats of the session's loaded user. |
| `Server.RedisStore.RemoveFriendInvite` | server/data/redis/redis_user.c:69-93 | Removes every occurrence of the inviter from the list of the invited. |
| `Server.RedisStore.RoomMessageNext` | server/data/redis/redis_room.c:56-72 | Raises the amount by one and returns a message under the new amount, text cut to 384 characters. |
| `Server.ChatServer.OnAccountCreate` | server/handlers/event_handler.c:173-191 | Takes the account-creation step for the credentials in the packet; ok exactly when they are well formed and the name is free. |
| `Server.ChatServer.Auth` | server/modules/user_service.c:61-81 | Returns the id of the named user if the password is right, and -1 otherwise. |
| `Server.ChatServer.OnLogIn` | server/handlers/event_handler.c:193-240 | Takes the login step; ok exactly when the credentials are right and the session key is new. |
| `Server.ChatServer.ImportChats` | server/data/bridge.c:26-42 | Imports the chats Redis lacks, in order, up to the first one that neither store has. |
| `Server.ChatServer.MongoToRedis` | server/data/bridge.c:18-64 | Takes the load step; fails exactly when the name or one of the chats is unknown. |
| `Server.ChatServer.OnDataRequest` | server/handlers/event_handler.c:242-287 | Attaches the socket and loads the user of the session; ok exactly when the load runs to its end. |
| `Server.ChatServer.OnMessageRequest` | server/handlers/event_handler.c:435-528 | Takes the message step and makes the deliveries that `Delivery.AnsweredAsStored` describes. |
| `Server.ChatServer.ForwardAll` | server/handlers/event_handler.c:505-526 | One delivery to each member other than the sender who is online and has a socket, in member order. |
| `Server.ChatServer.OnFriendAddRequest` | server/handlers/event_handler.c:530-691 | Takes the friend step; refused exactly for malformed packets, unknown names, unloaded senders and oneself. |
| `Server.ChatServer.MakeFriends` | server/handlers/event_handler.c:579-674 | Both sides gain the friend and the new room, each in the store that holds it, and the room is in both stores. |
| `Server.ChatServer.RoomCreation` | server/modules/user_service.c:39-59 | A fresh room id, and the room in MongoDB and in Redis. |
| `Server.ChatServer.RoomAnyOnline` | server/data/mongodb/mongodb_room.c:204-215 | True exactly when a member other than the given user has keys in Redis. |
| `Server.ChatServer.FlushChats` | server/data/bridge.c:92-124 | Saves exactly the rooms without another loaded member, up to the first chat missing from Redis. |
| `Server.ChatServer.RedisToMongo` | server/data/bridge.c:72-128 | Takes the logout step; ok exactly when user, socket and all chats were found. |
| `Server.ChatServer.OnLogOutRequest` | server/handlers/event_handler.c:697-712 | Takes the logout step for the session in the packet. |
| `Server.ChatServer.OnDisconnect` | server/modules/server.c:111-132 | A closed connection logs out the session its socket was attached with. |
| `Dispatch.PacketHandler.RecognizeLoginPacket` | server/handlers/packet_handler.c:22-40 | Takes the step of the account creation or login in the packet, or none, and leaves coherent stores for the next input (which packet is which: `FrontDoor.LoginPort`). |
| `Dispatch.PacketHandler.RecognizePacket` | server/handlers/packet_handler.c:42-83 | Takes the step of the message, friend request, logout or load in the packet, or none, and leaves coherent stores for the next input. |
| `Dispatch.PacketHandler.Disconnect` | server/modules/server.c:111-132 | Takes the logout step of the closed connection and leaves coherent stores for the next input. |
| `Dispatch.PacketHandler.Serve` | server/modules/server.c:108-168 | Any number of inputs one after the other, each handler starting from what the last one left. |
| `Dispatch.InputsAreEvents` | server/modules/server.c:108-168 | A run of inputs is a guarded run of events on the stores, and a run of the single service. |
| `Dispatch.ServesAsOneService` | server/handlers/packet_handler.c:22-83 | From empty stores, whatever admissible packets and disconnections arrive: coherent stores, a run of the single service, and no name with a semicolon. |
| `FrontDoor.LoginPort` | server/handlers/packet_handler.c:22-40 | A printed registration is the service's account creation with that name and password, a printed login its login. |
| `FrontDoor.OtherLoginPackets` | server/handlers/packet_handler.c:35-38 | Any other kind at the login port leaves the stores alone. |
| `FrontDoor.AccountOpens` | server/modules/user_service.c:16-81 | A new account is logged in to by its own password and by no other. |
| `FrontDoor.MainPort` | server/handlers/packet_handler.c:42-76 | Printed messages, friend requests, logouts and first data requests are the service's events for the same session, room, text, friend and socket. |
| `FrontDoor.OtherMainPackets` | server/handlers/packet_handler.c:56-80 | Any other kind at the main port leaves the stores alone. |
| `FrontDoor.RegistrationAnswered` | server/handlers/event_handler.c:173-191 | A registration is answered ok if and only if there is one more user afterwards. |
| `FrontDoor.LoadAnswered` | server/handlers/event_handler.c:242-287 | A first data request is answered ok if and only if its session's user is loaded afterwards. |
| `FrontDoor.LogoutAnswered` | server/handlers/event_handler.c:697-712 | A logout is answered ok if and only if its session's user was loaded. |
| `FrontDoor.RequestAnswered` | server/handlers/event_handler.c:530-563 | A friend request is answered ok if and only if a loaded user names another, existing one. |
| `Sockets.ClosingExactly` | server/modules/server.c:111-132 | Closing a socket logs out everybody loaded over it if and only if its entry leads to each of them, and never a user it does not lead to. |
| `Sockets.LeavesNothingBehind` | server/data/redis/redis_user.c:327-419 | After a logout the user is not online and the socket has no entry; everybody else's keys, entries and places online, the sessions, invites and rooms stay. |
| `Sockets.UnusedCloses` | server/modules/server.c:111-132 | Where every entry names a user loaded over its socket, closing a connection whose user has left changes nothing, wherever the user is by then. |
| `Sockets.TidyRunsClose` | server/data/redis/redis_user.c:235-261 | Over every run in which no load uses a socket another user is loaded over and no login takes over a key: every entry names a user loaded over its socket, closing any socket logs out everybody loaded over it, and closing one nobody is loaded over changes nothing. |
| `Delivery.TypedTextIsStored` | client/modules/packets.c:62-77 | A text typed by a loaded member, semicolons included, becomes the next message of the room's history, up to 384 characters. |
| `Delivery.OnlyThePartnerHears` | server/handlers/event_handler.c:509-526 | A message is passed on to the other member's socket exactly when that member is loaded, and to nobody else. |
| `Delivery.AnsweredAsStored` | server/handlers/event_handler.c:435-526 | For any packet: either one history has one message more, and then the sender is sent that message and the loaded partner the same packet; or nothing has changed, and then the sender alone is sent a refusal, numbered if the packet names a room. |
| `Arrival.EveryRoomArrives` | server/handlers/event_handler.c:326-366 | To a client that acknowledges every room packet, the transfer after a load sends each room of which the user is a member once, in list order, and then the end (when the shipped client does so: `LoginRun.EndsExactlyWhenHeld`). |
| `Arrival.HistoryArrives` | server/modules/packets.c:198-293 | For a history of non-empty texts without semicolons and any state of the login at each packet: the room a client opened for it ends with every message of the service, in order, with 19 characters of its sender's name and 383 of its text, if and only if there is one packet and it is read while the login is pending or holds one message. |
| `Arrival.NamesStayPlain` | server/handlers/event_handler.c:50-74 | Names come out of packets without semicolons, and every event whose names do keeps all names so (over whole runs of packets: `Dispatch.ServesAsOneService`). |
| `Logouts.LastLeaverSaves` | server/data/bridge.c:86-113 | Over every interleaving of logouts, logins and orderly messages, once no logout is under way every cached room is equal in both stores or has a loaded member. |
| `Logouts.DoSafe` | server/data/bridge.c:86-113 | Each single store command keeps this: a room that differs is watched by a loaded member or by a logout that has yet to treat it. |
| `Logouts.GoodIsSafe` | server/data/bridge.c:72-86 | Every coherent state is a safe starting point of the interleavings. |
| `Logouts.AloneIsLeave` | server/data/bridge.c:72-128 | One logout run command by command and alone ends in the rooms and loaded users of the atomic logout step. |
| `Logouts.EnterIsLoad` | server/data/bridge.c:18-64 | The machine's login does to rooms and loaded users what the load step does. |
| `Logouts.ReceiveIsSend` | server/handlers/event_handler.c:487-500 | And its message what the message step does. |
| `Logouts.LostExactlyWhenHeld` | server/data/bridge.c:99-113 | In every safe state whose room members are known, a message has a continuation that ends idle with the room neither saved nor watched if and only if a logout holds a copy of the room. |
| `Logouts.HeldMeansLost` | server/data/bridge.c:92-124 | That continuation, for any such state: all others log out, then the holder saves its older copy. |
| `Scenario.MessageLost` | server/data/bridge.c:92-113 | The same from empty stores: a concrete run to two loaded friends, a logout that has read their room, and a message that is lost. |
| `Scenario.SecondLoadBreaks` | server/data/redis/redis_user.c:99-122 | A concrete run from empty stores after which one more data request leaves the stores incoherent. |
| `Scenario.TakenKey` | server/data/redis/redis_session.c:46-70 | After the same run a refused login takes the first user's key over, and what that user's client sends next is stored as the second user's. |
| `Senders.RunCovers` | server/data/redis/redis_room.c:56-72 | However senders interleave, listed and drawn ids are disjoint and together exactly 1 to the amount, and listed ids have bodies. |
| `Senders.QuietRoomIsComplete` | server/handlers/event_handler.c:487-500 | With no message between draw and push, the listed ids are a permutation of 1 to the amount and no body is missing. |
| `Senders.ListedStays` | server/data/redis/redis_room.c:15-54 | A listed message keeps its content whoever else is sending. |
| `Senders.OrderedIffLeastFirst` | server/handlers/event_handler.c:487-500 | From a room in order, the list ends as 1, 2, ... if and only if every push is of the least id drawn and not yet pushed. |
| `Senders.AloneIsOneStep` | server/handlers/event_handler.c:487-500 | A draw and a push with nobody in between are the single step the handler is modelled by. |
| `Senders.CachedRoomCovers` | server/data/redis/redis_room.c:15-72 | Every cached room of a coherent state is one senders may start from: ids 1 to the amount, once each, with bodies. |
| `Senders.OverlapIsGood` | server/handlers/event_handler.c:459-500 | However sends of loaded members interleave in a room, once all are pushed the stores are coherent, the service invariant holds and only that history has grown. |
| `Senders.TurnsAreGood` | server/handlers/event_handler.c:435-712 | Over every run of events and overlapping sends: coherent stores, histories that only grow, and MongoDB holding a prefix of each, all of it when nobody there is loaded. |
| `Senders.OrderCanSwap` | server/handlers/event_handler.c:487-500 | A concrete run of two overlapping senders that ends with the list out of id order. |
| `Text.AtoiShow` | server/modules/packets.c:198-213 | Printing a number and reading it back are inverse, whatever non-digit follows. |
| `Text.AtoiLenient` | server/modules/packets.c:198-213 | Blanks and a plus sign in front make no difference, and a text without a number in front reads as 0. |
| `Text.Split` | client/handlers/packet_handler.c:174-183 | The search for a semicolon finds the end of the field and the start of the rest. |
| `Codec.DecodePart` | client/handlers/packet_handler.c:185-236 | Decoding a printed message returns it, whatever its text holds, except that an empty text is refused; names keep 19 characters. |
| `Codec.LiveRoundTrip` | client/handlers/packet_handler.c:322-340 | The live branch reads back the packet printed for one message, for every text of 1 to 384 characters. |
| `Codec.NextMsgStruct` | client/handlers/packet_handler.c:174-183 | Five semicolons further on, or nothing when there are fewer. |
| `Codec.CountMessages` | client/handlers/packet_handler.c:272-294 | The counting loop ends on every payload and returns n exactly when the payload ends in a semicolon and holds 5n of them, n at least 1. |
| `Codec.DecodeParts` | client/handlers/packet_handler.c:300-318 | For texts without semicolons the counting cursor and the length-prefixed decoder stay together, so the first n messages come back. |
| `Codec.FirstPacketExact` | client/handlers/packet_handler.c:272-320 | Decoded as a batch (pending login) without a limit on the amount, a first packet is read back exactly if and only if no text in it is empty or holds a semicolon. |
| `Codec.ContinuationPacket` | server/modules/packets.c:255-262 | A continuation packet is counted as whole by the batch branch (pending login) if and only if its texts hold 4 semicolons modulo 5, so never when they hold none. |
| `ClientPackets.MessageRoundTrip` | server/handlers/event_handler.c:368-433 | Session, chat and text of a printed message packet are what the server extracts, for arbitrary texts. |
| `ClientPackets.CredentialsRoundTrip` | server/handlers/event_handler.c:50-74 | Name and password are extracted as printed, or refused exactly when a length is out of range. |
| `ClientPackets.FriendAddRoundTrip` | server/handlers/event_handler.c:27-48 | Session and friend name are extracted as printed, and no name of more than 20 characters. |
| `ClientPackets.RoomReplyRoundTrip` | server/handlers/event_handler.c:103-148 | Session, room and verdict of a room reply are extracted as printed. |
| `ClientPackets.FriendReplyRoundTrip` | server/handlers/event_handler.c:150-171 | Session and verdict of a friend-list reply are extracted as printed. |
| `ClientPackets.ThirdNumberExactly` | server/handlers/event_handler.c:368-403 | A room number is read exactly from packets with a kind of 4 and a session of 16 characters and something behind them. |
| `ClientPackets.StateExactly` | server/handlers/event_handler.c:150-171 | A friend-list reply says ok exactly at 24 to 27 characters ending in ok. |
| `ClientPackets.RoomStateExactly` | server/handlers/event_handler.c:103-148 | A room reply is read from 26 characters on and for no room 0, and says ok only with ok. |
| `ClientPackets.SessionRoundTrip` | server/handlers/event_handler.c:76-101 | The session at the end of a packet is extracted as printed, and at its exact width only. |
| `Packets.RoomMessagePackets` | server/modules/packets.c:225-293 | The packets hold consecutive groups of the history, each within 1024 bytes and as full as it can be, and fit the array of one pointer per message. |
| `Packets.PackingConserves` | server/modules/packets.c:248-274 | Without prefixes and stray semicolons the packets concatenate to the printed history, cut only between messages. |
| `Packets.PackingIsTight` | server/modules/packets.c:236-274 | With ordinary sizes every packet is shorter than 1024, all but the last hold two messages or more, and there are at most (n+1)/2. |
| `Packets.PartBound` | server/modules/packets.c:198-213 | An ordinary message prints to at most 442 characters and so fits a packet of its own. |
| `Packets.ArrivesWhole` | client/handlers/packet_handler.c:272-320 | Read as batches, that is while the login is pending: of a history without empty texts and semicolons the first packet is read back and every other refused; all arrive if and only if it fits one packet. |
| `Client.UserData.ExtractFrnd` | client/handlers/packet_handler.c:27-87 | The announced number of cells is appended and filled with the names in the packet; a negative number takes cells away while one is left. |
| `Client.UserData.ExtractRoom` | client/handlers/packet_handler.c:99-172 | One more slot with the announced id, amounts, empty log and names; the table as it was when the header is malformed or 32 rooms are there. |
| `Client.UserData.ExtractRmsg` | client/handlers/packet_handler.c:238-344 | The table changes exactly as packet, pending login and free cells say: a message goes to the first room with the id, a batch to the last, and nothing is written out of bounds; ok exactly when there was something to add. |
| `Client.UserData.AddMessagesData` | client/modules/app/user_app.c:54-87 | The messages that fit the free cells are appended to the log of the last room with the id, if there is one, and to no other. |
| `Client.UserData.DecodeMessages` | client/handlers/packet_handler.c:300-318 | The decoding loop returns the next n messages or fails on the first bad one. |
| `Rooms.LogIsWhatArrived` | client/handlers/packet_handler.c:99-344 | Over every run of room, batch and live packets with distinct room ids: as many slots as room packets up to 32, distinct ids, and each room's cells holding exactly what its packets carried since it was opened, in order of arrival. |
| `Rooms.LoginFillsUp` | client/handlers/packet_handler.c:272-320 | While the login is pending a room holds the first messages that arrived for it, up to the announced amount. |
| `Rooms.LiveAppends` | client/handlers/packet_handler.c:322-340 | After it every message of a well-formed packet gets a cell of its own, in order of arrival. |
| `Rooms.FedIsRecordNext` | client/handlers/packet_handler.c:272-340 | One packet does to a room's cells and iterator what it does to an append-only log with an announced amount. |
| `Rooms.RepeatedLive` | client/handlers/packet_handler.c:256-263 | With a repeated id a live message goes to the first room that has it. |
| `Rooms.RepeatedBatch` | client/modules/app/user_app.c:54-87 | And a batch to the last, as far as the free cells of both allow. |
| `Rooms.Table` | client/handlers/packet_handler.c:99-344 | After any run of packets, repeated ids included, there are at most 32 rooms, every iterator is within its cells and every cell before it is filled. |
| `Client.HistoryFillsRoom` | client/handlers/packet_handler.c:272-320 | Read as a batch, that is while the login is pending, a history in one packet arrives completely in a room announced with its size. |
| `History.LiveBatch` | client/handlers/packet_handler.c:322-340 | Read after the login, a packet with several messages gives its first message and nothing else; an empty first text is refused. |
| `History.LiveContinuation` | client/handlers/packet_handler.c:322-340 | Read after the login, a continuation packet is stored as one wrong message with id 0, every field shifted by one, unless its first date is below 1. |
| `History.ArrivesExactly` | client/handlers/packet_handler.c:238-344 | With the state of the login at each packet: a freshly opened room ends with exactly the printed history if and only if there is one packet and it is read while the login is pending or the history is one message. |
| `History.ContinuationFed` | server/modules/packets.c:255-262 | In any room a continuation adds nothing while the login is pending, and afterwards nothing or one shifted message. |
| `Client.RoomPacketRoundTrip` | server/modules/packets.c:160-196 | A printed room packet is read back as the same id, amounts and names. |
| `Client.OpensAsPrinted` | client/handlers/packet_handler.c:129-169 | And opens a slot with these members' names and as many empty cells as there are messages. |
| `Client.FriendsPacketRoundTrip` | server/modules/packets.c:87-137 | A printed friends packet is read back as the same names. |
| `Client.GetFriendsPacket` | server/modules/packets.c:87-137 | Prints the count and all names, and nothing for more than 48. |
| `Client.GetRoomPacket` | server/modules/packets.c:160-196 | Prints id, number of members, number of messages and all names. |
| `Client.ReadNames` | client/handlers/packet_handler.c:149-169 | The name loop reads n names, or fewer when the text ends. |
| `Transfer.TransferCompletes` | server/handlers/event_handler.c:326-366 | Whatever earlier transfers left in the counters, a client that acknowledges every room gets each chat once, in list order, and then the end, exactly when the chat list has no repetition; otherwise the end never comes. |
| `Transfer.GrownListFails` | server/modules/packets.c:423-447 | The list is read anew at each reply: a chat added during a transfer makes the reply to the last old chat a failure, and only a reply naming the new chat is answered with the end. |
| `Transfer.MalformedReplies` | server/handlers/event_handler.c:326-350 | A reply about no room or too short is a plain failure, one with a bad session a failure for its room; neither moves a counter. |
| `Recognize.ChatClient.OnRoomPacket` | client/handlers/packet_handler.c:546-592 | Opens the room and acknowledges it exactly while the login is pending; ends, fails or empties on the verdict packets. |
| `Recognize.ChatClient.OnMessagePacket` | client/handlers/packet_handler.c:593-630 | Extracts the messages and reports success or failure to the pending login, else to the pending message. |
| `Recognize.ChatClient.FreeUserData` | client/modules/app/user_app.c:89-100 | Session, rooms and friends are gone; pending requests stay. |
| `Sending.EchoSucceeds` | client/handlers/packet_handler.c:607-628 | With the login over, the echo of a sent message is stored behind what its room held, and the waiting request reports success. |
| `Sending.UnreadableFails` | client/handlers/packet_handler.c:607-616 | A packet that cannot be read stores nothing and makes the waiting request report failure. |
| `Sending.EmptyEchoFails` | client/handlers/packet_handler.c:217-220 | So does the echo of a message sent without text. |
| `Sending.OthersUntold` | client/handlers/packet_handler.c:607-628 | A message packet speaks to the pending login, or else to the pending message, and to no other request. |
| `Sending.EndReports` | client/handlers/packet_handler.c:552-556 | The end of a transfer makes the waiting login report success and changes no room. |
| `Sending.FailureReports` | client/handlers/packet_handler.c:558-563 | Its failure empties the client and makes the login report failure. |
| `Sending.NamelessRoomFails` | client/handlers/packet_handler.c:574-579 | A room packet that announces members and names none is answered with a failure, which the server answers with the one that empties the client. |
| `Sending.UnknownRoomFails` | server/handlers/event_handler.c:355-359 | A reply about a room that is not the user's ends the same way, by way of an answer the client cannot read. |
| `Sending.ShortPackets` | client/handlers/packet_handler.c:546-598 | Room packets under 7 and message packets under 18 characters are dropped, longer ones are not. |
| `Sending.OversizedDropped` | client/handlers/packet_handler.c:346-352 | A packet of more than 1024 characters is dropped, one of 1024 is handled. |
| `LoginRun.EndsExactlyWhenHeld` | client/handlers/packet_handler.c:546-630 | For every interleaving of deliveries, waiters, deadlines, cancellations and callbacks, once all packets are read: the server has sent all rooms in order and reported the end if and only if the login slot was taken at every room packet; otherwise it has sent the rooms up to some point and never reports the end. |
| `LoginRun.GoingEnds` | server/handlers/event_handler.c:326-366 | The same from any room of the transfer on. |
| `LoginRun.CallbackCutsTransfer` | client/handlers/response_handler.c:44-75 | For any login to three rooms or more, the first with a one-packet history: a run in which the callback reports success after that packet, the second room is not acknowledged and the third never sent. |
| `LoginRun.ThirdRoomNeverArrives` | client/handlers/packet_handler.c:581-619 | Such a run with three concrete rooms and one message. |
| `LoginRun.ContinuationFailsLogin` | client/handlers/packet_handler.c:607-616 | A continuation read while the login waits makes its callback report a failure, whatever was signalled before. |
| `Transfer.SendsAreBounded` | server/data/redis/redis_counter.c:220-283 | From any transfer start to the next, whatever was sent before and whatever the client replies: each of the user's rooms goes out at most three times, any other never, and at most three packets per distinct chat in all. |
| `Transfer.RunSpends` | server/data/redis/redis_counter.c:261-283 | Over any replies the number of room packets sent is the amount by which the counters rose, none above its cap. |
| `Transfer.RunSpendsEach` | server/data/redis/redis_counter.c:234-283 | Over any replies each room is sent as often as its own counter rises, and a room without counter or outside the user's chats never. |
| `Transfer.CapIsReached` | server/data/redis/redis_counter.c:261-283 | A client that acknowledges one room over and over is sent the next exactly three times. |
| `Transfer.RoomTransfer.GetNextRoom` | server/modules/packets.c:423-447 | The chat after the first occurrence of the id, the end after the last, unknown otherwise. |
| `Transfer.RoomTransfer.SendRoomPacket` | server/modules/packets.c:358-417 | Sends and counts exactly when the counter exists, the chat is the user's and the cap is not reached. |
| `Transfer.RoomTransfer.OnRoomRequest` | server/handlers/event_handler.c:326-366 | Answers a room reply with the next room, the end or a failure, by state, session and chat list. |
| `Transfer.RoomTransfer.Start` | server/modules/packets.c:449-490 | Resets the counter of every chat and sends the first, reports the end for an empty list, and sends nothing for a session without a user in Redis. |
| `Requests.DoKeepsInv` | client/handlers/response_handler.c:44-181 | Every act of any thread keeps slots and live requests in one-to-one agreement, ids reported at most once, and each request's flags exactly what the acts since its start say: received and success by the last signal, timeout if and only if it was cancelled or its deadline came before any response. |
| `Requests.OneLiveRequestPerKind` | client/handlers/response_handler.c:104-130 | Over all interleavings two live requests are never of one kind. |
| `Requests.EveryRequestReportsOnce` | client/handlers/response_handler.c:64-102 | Once no thread can move, every request ever started has had exactly one callback and every slot is free. |
| `Requests.OnlyOwnCleanupClears` | client/handlers/response_handler.c:44-62 | A slot is given up exactly by the callback of the request that holds it. |
| `Requests.VerdictsAreTrue` | client/handlers/response_handler.c:184-212 | A callback's verdict is determined by the acts since its request started: timed out exactly when it was cancelled or its deadline came before any response, whatever signal follows, and otherwise what the last signal said; a failure only when it said so. |
| `Requests.WaitsExactly` | client/handlers/response_handler.c:86-95 | Over every run: a waiter that looks, on entering or on a wake-up, stops waiting if and only if a response, a cancellation or a deadline missed before any response lies since its start, and blocks otherwise; at its deadline it stops in any case. |
| `Requests.PostedMeansHeard` | client/handlers/response_handler.c:77-102 | No callback is queued before one of these has happened, so a failure reported means a response that said so (`VerdictsAreTrue`). |
| `Requests.ReportsAsTold` | client/handlers/response_handler.c:133-155 | A blocked request that is told, woken and called back reports what it was told, and its slot is free. |
| `Requests.SignalIsNotLost` | client/handlers/response_handler.c:133-155 | A response recorded before a timeout survives every later act except a cancellation, even when the waiter has not started to wait. |
| `Requests.RequestTable.StartRequest` | client/handlers/response_handler.c:104-130 | Claims the slot and starts a request exactly when the slot is free. |
| `Requests.RequestTable.SignalResponse` | client/handlers/response_handler.c:133-155 | Records the response on the live request of that kind, if any. |
| `Requests.RequestTable.CancelRequest` | client/handlers/response_handler.c:169-181 | Marks the live request of that kind as timed out, if any. |
| `Requests.RequestTable.IsRequestPending` | client/handlers/response_handler.c:157-167 | True exactly when the slot of the kind is taken. |
| `Requests.RequestTable.Test` | client/handlers/response_handler.c:86-86 | The waiter goes on waiting exactly when there is neither response nor timeout. |
| `Requests.RequestTable.RunOut` | client/handlers/response_handler.c:87-94 | A deadline marks a timeout unless a response came first, and ends the wait. |
| `Requests.RequestTable.ShowResponse` | client/handlers/response_handler.c:184-212 | Reports the verdict of the flags once and frees the slot if it is still the request's own. |

## Left out

- Server.ChatServer.OnDataRequest: requires at most 48 friends and 32 chats in the document that is read (`Fits`), because the code allocates arrays by the stored counts, fills at most the caps and leaves the tails uninitialised.
- Server.ChatServer.OnFriendAddRequest: has the same guard for a friend who is offline; the friend and room packets it pushes to the two sockets are not modelled, only the stores and the ok or fail of the reply.
- Server.ChatServer.OnMessageRequest: requires a printed size that is not negative (`SizeIsNatural`); the code allocates and copies by it otherwise. The sender's name in the forwarded packet is modelled in `Arrival`, not here.
- Server.ChatServer.OnDisconnect: a socket without a stored entry is a no-op here, where the code first converts a missing id field.
- Simulation.StepSimulates: assumes no second load of a loaded user (`Fresh`); the exact effect of such a load is `Theorems.LoadIsSafe`.
- Client.UserData.ExtractRoom: requires an announced message amount that is not negative, because the code allocates by it.
- Client.UserData.ExtractFrnd: taking away the last cell counts as a failed reallocation, as it does in glibc.
- Rooms.LogIsWhatArrived: is about room packets with distinct ids, as the server sends them (`Arrival.EveryRoomArrives`); with a repeated id only `Rooms.RepeatedLive`, `Rooms.RepeatedBatch` and `Rooms.Table` speak.
- Packets.RoomMessagePackets: requires messages that fit a packet of their own, which `Packets.PartBound` proves for the sizes the system produces; the caller already asks only for rooms with messages.
- Transfer.RoomTransfer.OnRoomRequest: one object is one session, so the packet names that session or none; the id printed after a packet too short to hold one is uninitialised in the code and is a plain failure here.
- Requests.RequestTable.SignalResponse: looking up the slot and writing the flags is one step, while the code drops the table lock in between.
- Requests.RequestTable.ShowResponse: the message dialog shows one text for a timeout and a failure; the model keeps the two verdicts apart for every kind.
- Server.ChatServer.MongoToRedis: has the guard of `OnDataRequest`, for the same reason.
- Server.ChatServer.MakeFriends: has the guard of `OnFriendAddRequest`, for the same reason.
- Dispatch.PacketHandler.RecognizePacket: the guards of the stores and of message sizes again (`Admissible`); replies to friend and room packets move counters only, which `Transfer` models.
- LoginRun.EndsExactlyWhenHeld: the chat list stays as it is during the run (`Transfer.GrownListFails` has the other case), a reply is answered when it is sent, and one packet is handled in one step, though the code asks for the pending login more than once.
- Recognize.ChatClient.OnRoomPacket: with the message case it is all that is modelled of the client's `recognize_packet`; the cases for logins, friends and plain verdicts, which signal a request or open a connection, are not.
- Invites.OneWayExactly: the look-ups of names and users before the first invite check are part of beginning a request.
- Logouts.LastLeaverSaves: a message waits until no logout holds a copy of its room, and logins read and import in one step; `Logouts.LostExactlyWhenHeld` shows that the first guard is exact.
- Senders.OverlapIsGood: sends overlap with each other within one room; other handlers come before or after, as `Senders.Turn` says.
- The handlers for friend removal, room creation and room removal, which are empty.
- Sockets, processes, threads' start-up, sleeps, windows and dialog texts: whole packets, acts and verdicts instead.
- Failed database commands and failed allocations: commands succeed and are atomic.
- Memory ownership, copies beyond a terminator and unterminated temporaries: texts are values and every copy stops at the end of its text.
- 32-bit and 64-bit wrap-around of ids, dates and counts: integers are unbounded, and only `Packets.Ordinary` uses the widths.
- Key expiry, dates and random session keys: parameters or never.
- The resend counter of the friends packet and the list of room ids kept beside the room counters, which nothing reads.
- The keys of one user (hash, friends, chats) are one record, and so are those of one room; a key that exists in part is an absent field.
- Characters are units of one byte; encodings play no part.
