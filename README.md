# Bursai chat platform: check-in bot and driver tracking, in Dafny

This project models two pieces of the Bursai chat platform and proves
properties of them.

1. **The LINE bot's webhook handler** (`handleEvent` in `index.js`). Each
   event is a message. A text message is trimmed, lower-cased and compared
   with two Thai commands:
   - "ลงทะเบียน" (register) stores the sender's LINE profile in the `users`
     collection, unless the sender is already there.
   - "เช็คอิน" (check in) gives a registered sender a queue entry in the
     `queues` collection. A sender who already has a WAITING entry is told
     its number instead. A new entry gets status WAITING and the number
     (count of WAITING or SERVING entries) + 1.
   - Any other text gets a help reply.

   The two Firestore collections are held in memory: `users` is a map keyed
   by LINE user id, and `queues` is a sequence of entries in the order they
   were added. The handler is `LineBot.Handle`, a function from the
   collections and one event to the reply and the new collections.
   `LineBot.BotStores.HandleEvent` is the same handler as a method that
   updates the two collections in place. It runs the two Firestore queries as
   loops (`QueryWaitingOf`, `CountActive`), and its postcondition ties it to
   `Handle`. The reply is a returned value: `None` stands for the `null` that
   non-text events resolve to.

   Starting from empty collections, any sequence of events keeps this
   invariant (`LineBot.Reachable`): every entry is WAITING and belongs to a
   registered user, entry k carries queue number k, and no user has two
   WAITING entries.

2. **The driver page's GPS tracking** (`public/driver.js`).
   - `Driver.UpdateLocation` is the gate every browser-reported position
     passes. It drops (0, 0) and anything outside latitude [5, 21] ×
     longitude [97, 106]. What passes is posted with its coordinates
     unchanged, and with `speed` and `heading` defaulted to 0 when falsy.
   - `Driver.Tracker` is the Start/Stop toggle. It holds `watchId`, the two
     buttons' `disabled` flags, the status line and the set of watches the
     browser's geolocation service holds for the page. Its invariant is that
     this set is empty or holds exactly `watchId`, so a watch is never
     started twice or leaked.

Two JavaScript built-ins used by the handler are modelled in `JsString`.
`String.prototype.trim` strips ECMAScript's WhiteSpace and LineTerminator
code points from both ends. `String.prototype.toLowerCase` is modelled for
ASCII letters only.

`index.js` creates only WAITING entries and never changes an entry's
status. Room numbers of SERVING entries appear only in what
`public/dashboard.js` displays. The code numbers a new entry by counting the
WAITING and SERVING entries, not all entries. Under this handler alone the
two counts agree, because every entry it creates stays WAITING. Once some
other part of the system moves an entry out of those two statuses, a number
already held can be handed out again (`LineBot.NumberReusedAfterStatusChange`).

Files: `wrappers.dfy` (Option), `js_string.dfy` (trim, toLowerCase),
`line_bot.dfy` (index.js), `driver.dfy` (public/driver.js).

## Model

| member | source | states |
|---|---|---|
| `JsString.TrimBounds` | index.js:42 | trim cuts `s` so that everything before the cut start and from the cut end on is trimmable, and the kept middle starts and ends with a kept code point |
| `JsString.Trim` | index.js:42 | the trimmed text is no longer than the input and neither starts nor ends with a WhiteSpace or LineTerminator code point |
| `JsString.TrimOfPadded` | index.js:42 | trim is determined by its contract: a text without trimmable ends, padded on both sides by trimmable code points, trims back to itself |
| `JsString.TrimIdempotent` | index.js:42 | trimming twice gives the same text as trimming once |
| `JsString.ToLower` | index.js:44 | lower-casing keeps the length, maps each ASCII capital A-Z to its small letter and leaves every other code point unchanged |
| `JsString.LowerEqualsCaselessKeyword` | index.js:44 | comparing the lower-cased text with a keyword that has no ASCII letters is the same as comparing the text itself, in both directions |
| `LineBot.ParseCommand` | index.js:42-56 | the register command is selected exactly when the trimmed text equals "ลงทะเบียน", and check-in exactly when it equals "เช็คอิน" |
| `LineBot.Text` | index.js:48-71 | spells out each reply in the source's Thai words; its contract states that the welcome ends, after a space, with the display name, and the "already waiting" and "checked in" replies end, after a space, with the queue number in decimal |
| `LineBot.NatToDecimal` | index.js:66 | a number interpolated into a reply is written with digits only, without a leading zero, and reads back to the number |
| `LineBot.ActiveCount` | index.js:63-64 | the count of WAITING or SERVING entries is at most the number of entries; it equals it exactly when all are active and is 0 exactly when none is |
| `LineBot.FirstWaitingOf` | index.js:60-61 | the lookup returns an entry of the queue that is WAITING and belongs to the user, and returns nothing exactly when the user has no WAITING entry |
| `LineBot.QueryWaitingOf` | index.js:60 | the loop over the queue returns the first WAITING entry of the user, or nothing |
| `LineBot.CountActive` | index.js:63-64 | the loop over the queue returns the number of WAITING or SERVING entries |
| `LineBot.Handle` | index.js:36-72 | a reply is produced exactly for text messages and carries the event's reply token; no user record is removed or overwritten; existing queue entries are kept in place and at most one entry is appended |
| `LineBot.NonTextEventIgnored` | index.js:37-39 | an event that is not a text message yields no reply and leaves both collections unchanged |
| `LineBot.OtherTextGetsHelp` | index.js:68-71 | a text that is neither command after trimming gets the help reply and leaves both collections unchanged |
| `LineBot.RegisterWhenRegistered` | index.js:44-48 | registering an already registered user replies "already registered" and changes nothing |
| `LineBot.RegisterNewUser` | index.js:49-53 | a first registration adds exactly the sender, with the display name and picture of the LINE profile and the current time, greets them by that name and leaves the queue unchanged |
| `LineBot.RegisterIdempotent` | index.js:44-53 | a second register request leaves the collections as the first one left them, whatever profile and time it sees |
| `LineBot.CheckInUnregistered` | index.js:56-59 | a check-in by an unregistered user is refused with "register first" and adds no entry |
| `LineBot.CheckInWhileWaiting` | index.js:60-61 | a user with a WAITING entry is told that entry's queue number and nothing is added, given at most one WAITING entry per user |
| `LineBot.CheckInNew` | index.js:62-66 | a registered user without a WAITING entry gets exactly one appended entry, WAITING, numbered (WAITING + SERVING count) + 1, with name and picture copied from the stored user record; the reply carries that number and users are unchanged |
| `LineBot.HandlePreservesInv` | index.js:56-66 | every event keeps the invariant: all entries WAITING and registered, entry k numbered k, at most one WAITING entry per user |
| `LineBot.RunPreservesInv` | index.js:36-72 | any sequence of events, handled one at a time, keeps the invariant |
| `LineBot.Reachable` | index.js:60-65 | from empty collections, every reachable queue is numbered 1..n in creation order, has only WAITING entries of registered users and at most one WAITING entry per user |
| `LineBot.CheckInTwice` | index.js:60-66 | under the invariant, a check-in repeated right after a successful one is answered with the number just given and adds nothing |
| `LineBot.NumberReusedAfterStatusChange` | index.js:63-64 | in a queue numbered 1..n where some entry has left WAITING/SERVING, the next check-in gets a number an existing entry already holds; when exactly one entry has left, it is not the last one, and the rest are WAITING, the new entry gets the same number as the last entry, which is WAITING |
| `LineBot.BotStores.constructor` | index.js:15 | the collections start empty |
| `LineBot.BotStores.HandleEvent` | index.js:36-72 | updating the collections in place gives exactly the reply and collections of `Handle`, and keeps the invariant |
| `Driver.OrZero` | public/driver.js:42-43 | the fallback to 0 gives 0 exactly for null, NaN and 0, and otherwise the number itself |
| `Driver.UpdateLocation` | public/driver.js:14-44 | a position is posted exactly when it lies in latitude [5, 21] × longitude [97, 106], bounds included; (0, 0) is exactly the "awaiting fix" case; a posted payload keeps latitude and longitude and defaults speed and heading to 0 |
| `Driver.ZeroCheckOnlyChangesMessage` | public/driver.js:20-29 | dropping the (0, 0) check changes neither whether nor what is posted, only the message shown for (0, 0) |
| `Driver.CornersArePosted` | public/driver.js:25-29 | the bounds are inclusive: the four corners of the box are posted |
| `Driver.Tracker.constructor` | public/driver.js:7 | the page starts with no watch and no active geolocation watch |
| `Driver.Tracker.ClickStart` | public/driver.js:88-103 | without geolocation only the status changes; while tracking nothing changes; otherwise the new watch id is stored and is the only active watch, Start is disabled and Stop enabled; no watch is leaked |
| `Driver.Tracker.ClickStop` | public/driver.js:105-114 | with no watch nothing changes; otherwise the watch is cleared, no watch stays active, Start is enabled and Stop disabled |

## Left out

- The Firestore and LINE SDK calls are not modelled as I/O. `getProfile` becomes the `profile` parameter of `Handle`. `replyMessage` becomes the returned `Reply`. `new Date()` becomes the opaque `now` parameter.
- Failing calls are not modelled. If `getProfile` or a Firestore read or write rejects, `handleEvent` rejects and writes nothing further. `RegisterNewUser` and `CheckInNew` assume these calls succeed, so the model always adds the user or the entry.
- The Express server, its LINE middleware and dotenv are left out; they are wiring around the handler.
- Concurrency is left out. Events of one webhook batch run concurrently through `Promise.all`, and check-in reads before it writes without a transaction. The model handles events one at a time.
- `LineBot.QueryWaitingOf`: Firestore returns query results in document-id order, and ids from `add` are random. The model takes the first matching entry in insertion order. Under the invariant there is at most one, so the choice does not matter (`CheckInWhileWaiting`).
- `JsString.ToLower`: only ASCII letters are lower-cased. The full Unicode case mapping is not modelled. It cannot change the outcome, because the commands are Thai and no cased letter lower-cases to a Thai letter.
- JavaScript strings are UTF-16; the model works on Unicode code points. Trimming and comparing Thai text is unaffected.
- The reply texts are named by `ReplyMessage` and spelled out by `LineBot.Text`. Their delivery, and the failure of a reply call, are not modelled.
- Events whose source has no `userId` (group or room sources) are not distinguished. A profile without `pictureUrl`, which Firestore would reject as `undefined`, is not modelled.
- Room assignment, the SERVING transition, release, FIFO advancement and notifications do not occur in the modelled code and are not modelled.
- `Driver.UpdateLocation`: latitude and longitude are real numbers. A NaN coordinate would pass both checks in JavaScript; it is not modelled, since the browser always reports numbers. The post request, its response handling, audio playback, `toFixed` formatting, status-line texts and colours after posting are left out.
- `Driver.Tracker.ClickStart`: the watch id is a positive integer, as the Geolocation API guarantees for `watchPosition`. The watch options and the `updateLocation` / `handleError` callbacks it registers are not modelled.
- `handleError` in public/driver.js only picks an error message and is left out.
- public/dashboard.js, public/admin.js, public/bugo.js, public/scanner.js, public/login.js and public/staff_register.js are page rendering and form plumbing and are not part of this model.
