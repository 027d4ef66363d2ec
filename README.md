# Chat relay server: connection registry model

This project models the bookkeeping at the heart of the chat relay server in
`internal/network/server/server.go`. The server accepts TCP connections and
asks each one for a display name. It gives each named connection a random
colour from a fixed palette and relays every line a client sends to all
registered connections. It announces joins and departures, and on an interrupt
it closes every connection it tracks.

The model is a sequential, event-driven state machine over abstract
connection ids (`Server.ConnId`). The state is held by the class
`Server.Registry`:

- `clients` is the set of accepted connections;
- `names` and `colors` map each connection that completed its handshake to its
  display name and its colour code;
- `closed` is the set of connections closed so far;
- `log` records every write issued to a connection, in order, as
  (recipient, text) pairs.

Each step of a connection's handler, and the shutdown loop, is one atomic
method of the class. `Accept`, `HandshakeOk`, `Line`, `Cleanup` and
`Shutdown` model code the server runs under its mutex; `Prompt` and
`HandshakeFail` model code that takes no lock (server.go:87-91):

- `Accept` is the registration in the accept loop;
- `Prompt` is the handler's first, unlocked, write of the name prompt;
- `HandshakeFail` is the early return when no name arrives;
- `HandshakeOk` records the name and colour and broadcasts the join;
- `Line` is one pass of the chat loop;
- `Cleanup` is the deferred cleanup followed by the leave broadcast;
- `Shutdown` is the shutdown goroutine's loop that closes every connection.

A Go map is walked in no fixed order, so a broadcast is stated per recipient.
`Server.Inbox(log, c)` is the sequence of texts written to `c`. A broadcast of
`msg` to the set `S` appends `msg` exactly once to the inbox of every member of
`S` and leaves every other inbox unchanged. This also gives the ordering
promise: every recipient sees two broadcasts in the order they ran.

Three ghost sets, `waiting`, `failed` and `departed`, record where each
connection's handler is. Together with `names` they give the handler's
lifecycle: handshaking, then failed or chatting, then cleaned up. A fourth,
`joined`, records the connections whose join was announced. The methods
require the phase in which the handler's control flow calls them. The
invariant `Server.Consistent` ties these sets to the tables; among other
things it makes a leave announced only for a connection whose join was.

The colour palette (module `Colours`) holds the ECMA-48 "select graphic
rendition" control sequences of section 8.3.117 of ECMA-48. The first six
(parameters 31–36) are the standard foreground colours. The other six
(parameters 91–96) are the widespread bright-foreground extension. The reset
code is SGR parameter 0. The three message formatters live in module
`Messages`. Each has a parser as its partner. The join and leave parsers are
proved to read back exactly what the formatter wrote; the chat parser does so
when the name contains no ESC character.

Module `Scenarios` runs whole sessions on a fresh registry and states what
each connection receives.

Points where the code's behaviour is easy to misread:

- `clients` takes a connection at accept time (server.go:78-80), before it
  has a name; only `names` and `colors` follow the handshake. The model keeps
  that split.
- A connection whose handshake fails is closed but never removed from
  `clients` (server.go:88-91, and the deferred cleanup is only registered at
  server.go:110). Later broadcasts are still written to it
  (`Scenarios.AbandonedHandshake`), and shutdown closes it again
  (`Server.Registry.Shutdown` closes every member of `clients`).
- Cleanup is safe to repeat only as far as the tables go. Map deletion of an
  absent key is a no-op and closing twice is harmless. A repeated leave
  broadcast would announce an empty name, however, and the server avoids that
  only because each handler defers its cleanup exactly once
  (`Scenarios.RepeatedCleanup`).

## Model

| member | source | states |
|---|---|---|
| `Colours.Palette` | internal/network/server/server.go:42-55 | the palette has exactly twelve entries |
| `Colours.PaletteIsSgr` | internal/network/server/server.go:42-55 | slot i holds the SGR sequence for parameter 31+i (red..cyan) or 85+i (bright red..bright cyan), and the twelve codes are pairwise distinct |
| `Colours.PaletteIff` | internal/network/server/server.go:42-55 | a string is in the palette iff it has the shape ESC [ (3 or 9) (1..6) m |
| `Colours.Reset` | internal/network/server/server.go:56 | the reset code is SGR parameter 0, four characters starting with ESC |
| `Colours.Pick` | internal/network/server/server.go:95 | the colour drawn for any slot in [0, 12) is a palette entry |
| `Messages.PromptText` | internal/network/server/server.go:87 | the name prompt is the text "Enter your name: ", with no newline |
| `Messages.JoinMessage` | internal/network/server/server.go:103 | the join announcement for a palette colour parses back as a join of exactly that colour and name |
| `Messages.LeaveMessage` | internal/network/server/server.go:122 | the leave announcement for a palette colour parses back as a leave of exactly that colour and name |
| `Messages.ChatMessage` | internal/network/server/server.go:133 | the chat line for a palette colour and an ESC-free name parses back to exactly that colour, name and text |
| `Messages.ParseAnnouncement` | internal/network/server/server.go:103 | whatever it accepts is "*** " + a palette colour + name + reset + the given tail |
| `Messages.JoinIff` | internal/network/server/server.go:103 | a join announcement parses back to exactly its colour and name, and only such announcements parse as joins |
| `Messages.LeaveIff` | internal/network/server/server.go:122 | a leave announcement parses back to exactly its colour and name, and only such announcements parse as leaves |
| `Messages.ParseChat` | internal/network/server/server.go:133 | whatever it accepts is a palette colour + an ESC-free name + reset + ": " + text + newline |
| `Messages.ChatIff` | internal/network/server/server.go:133 | a chat line whose name has no ESC parses back to exactly its colour, name and text, and nothing else does |
| `Messages.ChatAmbiguous` | internal/network/server/server.go:133 | a name that contains the reset code followed by ": " makes two different (name, text) pairs produce the same line |
| `Messages.JoinIsNotLeave` | internal/network/server/server.go:122 | no join announcement equals any leave announcement |
| `Messages.ChatIsNotAnnouncement` | internal/network/server/server.go:133 | a chat line in a palette colour is never a join or a leave announcement |
| `Server.InboxAfterBroadcast` | internal/network/server/server.go:135-140 | after a broadcast, each recipient's inbox is its old inbox plus the message, and every other inbox is unchanged |
| `Server.Fanout` | internal/network/server/server.go:105-107 | the broadcast loop writes the message exactly once to every connection of the set and to nothing else |
| `Server.Lookup` | internal/network/server/server.go:113-114 | is the Go map read: the stored value, or "" for an absent key |
| `Server.Remove` | internal/network/server/server.go:115-119 | the connection leaves `clients`, `names` and `colors` and is closed, while every other connection keeps its membership, name and colour |
| `Server.AcceptKeeps` | internal/network/server/server.go:78-80 | registering a fresh connection as handshaking keeps the registry invariant |
| `Server.FailKeeps` | internal/network/server/server.go:88-91 | closing a handshaking connection and marking it failed keeps the invariant |
| `Server.RecordKeeps` | internal/network/server/server.go:97-100 | recording a name and a palette colour for a handshaking connection keeps the invariant |
| `Server.RemoveKeeps` | internal/network/server/server.go:112-119 | removing a chatting or already removed connection from all tables and closing it keeps the invariant |
| `Server.RemoveAgainIsNoop` | internal/network/server/server.go:115-119 | removing an already removed connection leaves the tables unchanged |
| `Server.CloseAllKeeps` | internal/network/server/server.go:63-67 | closing every registered connection keeps the invariant |
| `Server.Registry.constructor` | internal/network/server/server.go:34-39 | the registry starts with empty tables, nothing closed and nothing written |
| `Server.Registry.Accept` | internal/network/server/server.go:78-80 | adds the connection to `clients` and changes nothing else: names, colours, closed set and log are as before |
| `Server.Registry.Prompt` | internal/network/server/server.go:87 | writes the name prompt to the new connection only |
| `Server.Registry.HandshakeFail` | internal/network/server/server.go:88-91 | closes the connection and changes nothing else: it stays in `clients`, gains no name or colour, is never announced as joined, and nothing is written |
| `Server.Registry.HandshakeOk` | internal/network/server/server.go:92-108 | sets the name and the slot's palette colour, marks the connection as joined, then adds the join message once to the inbox of every connection in `clients`, the joiner included |
| `Server.Registry.Line` | internal/network/server/server.go:131-140 | adds colour + name + reset + ": " + text + newline once to the inbox of every connection in `clients`, the sender included; the tables are unchanged |
| `Server.Registry.Cleanup` | internal/network/server/server.go:110-128 | drops the connection from all three tables, closes it, and adds the leave message built from the name and colour read before deletion to the inbox of every remaining connection, never the departing one; the connection is always one whose join was announced; a repeat leaves the tables unchanged |
| `Server.Registry.Shutdown` | internal/network/server/server.go:63-67 | closes every connection in `clients`, writes nothing and leaves the tables unchanged |
| `Scenarios.Join` | internal/network/server/server.go:78-108 | accept, prompt and a successful handshake together add the connection and its entries and deliver the prompt and the join |
| `Scenarios.Abandon` | internal/network/server/server.go:78-91 | accept, prompt and a failed handshake leave the connection registered and closed, having received only the prompt |
| `Scenarios.AliceAndBob` | internal/network/server/server.go:78-108 | after two joins, the first joiner has received both joins and the second only its own |
| `Scenarios.AliceThenSilentBob` | internal/network/server/server.go:78-108 | a connection that abandons its handshake sends nothing to an earlier joiner |
| `Scenarios.JoinThenChat` | internal/network/server/server.go:97-140 | Bob's join reaches both clients, and Alice's "hi" reaches Bob and is echoed back to Alice |
| `Scenarios.LeaveThenChat` | internal/network/server/server.go:110-140 | Bob gets Alice's leave message with her name and colour, and Bob's next line no longer reaches Alice |
| `Scenarios.RepeatedCleanup` | internal/network/server/server.go:110-128 | a second cleanup of the same connection keeps the tables but would announce an empty name again |
| `Scenarios.AbandonedHandshake` | internal/network/server/server.go:78-108 | an abandoned handshake produces no join or leave message, and the closed connection still receives later joins |
| `Scenarios.ShutdownClosesAll` | internal/network/server/server.go:63-67 | shutdown with two clients connected closes both and sends neither anything more |

## Left out

- TCP listening, accepting and dialling, connection reads and writes, and the
  line scanner are I/O. Connections are abstract ids, incoming lines are
  method arguments, and writes are entries of `log`. Whether a write to a
  closed connection fails is not modelled: the server ignores write errors,
  and the log records the writes it issues.
- Goroutines and the mutex are not modelled. Each locked region is one atomic
  method, so interleavings inside a region are not modelled.
- `HandshakeOk` and `Cleanup` each merge two locked regions into one step.
  Another handler's step that runs between the two regions is not modelled.
- `Line` reads `names` and `colors` without the lock. This data race has no
  sequential counterpart, so the model reads the values stored at handshake.
- Random seeding and the random slot choice are not modelled. The slot is a
  caller-supplied index in [0, 12).
- Signal handling, closing the listener, process exit, fatal logging and
  console output are not modelled. A connection accepted while shutdown is
  under way is not modelled either.
- The client program (`internal/network/client/client.go`) and both entry
  points (`cmd/server/main.go`, `cmd/client/main.go`) are not part of this
  model. They are I/O pipes and process glue with no bookkeeping to state.
- `Messages.ChatIff`: the round trip is stated only for names without ESC. The
  server accepts any name, and `Messages.ChatAmbiguous` shows that a name
  containing the reset code cannot be read back.
