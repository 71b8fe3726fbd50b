# A verified model of the messenger's protocols

This project models the stateful cores of the messenger and proves what they promise over
whole runs: the Double Ratchet between two devices, the X3DH bootstrap with its prekey server
and the session manager on top, group-call room keys, refresh-token rotation across browser
tabs, and three small servers (rate limiter, device registry, usernames).

`dafny verify dfyconfig.toml` checks the whole project.

## How it is laid out

| file | what it holds |
|---|---|
| SymbolicCrypto | keys, KDFs, X25519 and what an outsider can compute, as free terms |
| DoubleRatchet | the `MessageRatchet` object, and each operation as a function of its state |
| RatchetBook, RatchetSide, RatchetReceive | one shared history of both ratchets, what one end knows of it, what a delivery does to that |
| RatchetRuns, RatchetSecrecy, RatchetHealing | two ratchets over a hostile network: safety, exact progress, loss, forward secrecy, recovery |
| X3dh, Prekeys, BootstrapRuns | key agreement, the prekey server, and any run of both |
| SessionManagers, SessionRuns | the session manager, the first conversation of two of them, and reloads |
| TransportChain, Rotation, Keyring, GroupClients | group calls: hash chain, election and convergence, LiveKit's keyring, one client |
| GroupRuns, GroupSessions, GroupMedia, GroupDelivery | whole group calls: agreement and convergence, the sessions behind them, the keys frames are sealed under, who is reached |
| TokenRotation | tabs, lock, storage and the refresh endpoint, interleaved, over the device tables |
| RateLimiter, DeviceRegistry, Usernames | the server cores, each with its runs |
| ByteText | the byte strings that keys and tags are bound to |

What the source changes in place is a class whose methods change fields, with loops and
rollback as in the source; each method is tied to a function of the old state, and the runs are
runs of those functions.

## What it takes for granted

- Cryptography is symbolic. X25519 commutes and separates public keys; HKDF, HMAC and signatures
  are free constructors; AES-GCM opens exactly under the same key, IV and associated data; fresh
  keys are fresh names. The four-digit call fingerprint is the exception: different room keys may share it.
- The network is the adversary for the ratchet: it drops, repeats, reorders and makes up
  envelopes, with any header and any ciphertext except a new one sealed under a key derived from
  the session's secret. `SymbolicCrypto.OutsidersStayOutside` says why somebody without the secret cannot do that.
- Operations on one ratchet, one session or one manager do not interleave at their `await`s, and
  rotations of one client do not overlap. Each call into SQLite is atomic.
- After a leak the adversary of the recovery results only listens, and no key minted later went into the X3DH secret.
- One end starts a session (a single initiator), and an initial message seen by the
  responder is the initiator's own: the server vouches for the sender's identity key.
- The tab protocol has working locks, every grant arrives, and no login overlaps a refresh. Each
  of the three is shown to be needed by a run that reaches the reuse branch without it.
- In a group call each handler runs to its end, but other handlers of the rotator may run between the
  deliveries of one rotation.
- A group call elects one rotator in everybody's view, that rotator does not reconnect, and
  applying a room key does not fail. Everybody in the call runs this code. The network may hand
  any room-key message to a non-rotator in the rotator's name, any reset to the rotator, and any
  proof to anyone, under the ideal-cipher and ideal-MAC rule above.
- The limiter sees non-decreasing times, and the username service a clock that never goes back.
  Times are whole ticks, fine enough for whatever readings a run contains.

## Where the code and its description differ

- `signal-crypto.js:379-384` says a one-time prekey is gone "whether or not anything above throws".
  The deletion comes after the key exchanges. The prekey is forgotten exactly when the message is for
  the current signed prekey and both its keys import (`X3dh.PrekeyForgottenExactlyWhen`, over runs
  `BootstrapRuns.PrekeySpentExactlyWhen`). A message whose ephemeral key does not import keeps it
  (`X3dh.PrekeySurvivesBadKey`), and a genuine message naming it is still answered afterwards
  (`BootstrapRuns.RefusalSpendsNothing`).
- Sessions are persisted so that a reload does not lose them (`sessions.ts:99-119`). A responder whose
  first envelope is refused has a session that is cached and not persisted. A reload is invisible to it
  exactly when it has no session or has accepted an envelope (`SessionRuns.ReloadsInvisibleExactlyWhen`);
  otherwise, with a one-time prekey in the handshake, nothing its peer sends is read any more
  (`SessionRuns.UnsavedSessionIsLost`, `SessionRuns.UnsavedSessionIsReachable`).
- A room key is "treated as desync" when its tag fails (`group-e2ee.js:430-437`), but the chain has
  moved by then. A genuine room key opens exactly when its session has not moved past it
  (`GroupSessions.GenuineRoomKeyOpensExactlyWhen`), and one forged message moves it
  (`GroupSessions.OneForgeryBlocks`).
- `usernames.py:18-19` says the original owner can always reclaim a name at once. The code parks a
  name released by anybody else, so an account whose old name was held and released by another
  member in between is refused (`Usernames.ReclaimCanBeRefused`); within the thirty days it is never
  refused for that reason (`Usernames.ReleaserMayReclaim`).
- The cap of two active devices holds for new devices only. Bringing back an expired device skips
  the count (`DeviceRegistry.CapKeptExactlyWhen`, `DeviceRegistry.CapCanBreak`).

## Model

| member | source | states |
|---|---|---|
| SymbolicCrypto.OutsidersStayOutside | clients/web/src/lib/crypto/message-ratchet.js:60-76 | whoever cannot compute the session secret and was given nothing derived from it computes nothing derived from it, so refusing the network exactly those keys is no restriction on an outsider |
| DoubleRatchet.MessageRatchet.InitSender | clients/web/src/lib/crypto/message-ratchet.js:106-124 | an initiator starts with a sending chain from one root step, no receiving chain and nothing stored |
| DoubleRatchet.MessageRatchet.InitReceiver | clients/web/src/lib/crypto/message-ratchet.js:128-141 | a responder starts on its signed prekey with no chain at all |
| DoubleRatchet.MessageRatchet.Encrypt | clients/web/src/lib/crypto/message-ratchet.js:143-170 | refuses exactly without a sending chain and then changes nothing; otherwise the envelope carries the current numbers and the chain moves by one |
| DoubleRatchet.MessageRatchet.Decrypt | clients/web/src/lib/crypto/message-ratchet.js:172-226 | any refusal leaves the whole state as it was, stored keys and their order included; no header makes one call derive more than 2001 message keys; the memory bound is kept |
| DoubleRatchet.MessageRatchet.Attempt | clients/web/src/lib/crypto/message-ratchet.js:208-226 | trial decryption gives the verdict of the specification, and its state when it succeeds |
| DoubleRatchet.MessageRatchet.SkipMessageKeys | clients/web/src/lib/crypto/message-ratchet.js:228-244 | stores the keys of the numbers passed over, evicts the oldest beyond the cap, refuses a jump above MAX_SKIP before deriving anything |
| DoubleRatchet.MessageRatchet.StepDhRatchet | clients/web/src/lib/crypto/message-ratchet.js:246-261 | two root steps around a fresh key pair, numbers reset, the old sending count kept as pn |
| DoubleRatchet.AdvancedChain | clients/web/src/lib/crypto/message-ratchet.js:234-240 | passing over numbers moves the receiving chain and its count by exactly as many steps, and otherwise changes only the stored keys |
| DoubleRatchet.AdvancedStores | clients/web/src/lib/crypto/message-ratchet.js:234-240 | each number passed over has its own message key stored under the current ratchet key and that number, and no other stored key changes |
| DoubleRatchet.DeliveredBounded | clients/web/src/lib/crypto/message-ratchet.js:228-244 | after any delivery at most 2000 keys are retained, under pairwise different (dh, n) |
| DoubleRatchet.RefusedExactlyWhy | clients/web/src/lib/crypto/message-ratchet.js:208-244 | without a stored key an envelope is refused, before its tag is looked at, exactly for a jump of more than a thousand, a ratchet key that does not import, or no chain to receive on |
| RatchetBook.KeySeparation | clients/web/src/lib/crypto/message-ratchet.js:41-55 | a chain hung off any root at any number, with whatever public key a header named, gives a real message key only if it is that message's own chain and number |
| RatchetReceive.AcceptedIsGenuine | clients/web/src/lib/crypto/message-ratchet.js:172-226 | what one end opens is a message of the shared history with that header and plaintext, not accepted before |
| RatchetReceive.GenuineVerdict | clients/web/src/lib/crypto/message-ratchet.js:172-244 | the verdict on each message of the shared history, from where the receiving end stands |
| RatchetRuns.StepGood | clients/web/src/lib/crypto/message-ratchet.js:143-262 | every send and every delivery keeps the two ends in lockstep on one key tree, with each unaccepted message ahead, stored under its right key, or evicted |
| RatchetRuns.AcceptedOnceAndGenuine | clients/web/src/lib/crypto/message-ratchet.js:106-262 | in every run everything accepted was sent by the peer under that header with that plaintext, and no header is accepted twice |
| RatchetRuns.OnlyGenuineOpens | clients/web/src/lib/crypto/message-ratchet.js:172-226 | the next envelope opens only if the peer sent it, bit for bit, and it was not accepted before |
| RatchetRuns.GenuineOpensExactlyWhen | clients/web/src/lib/crypto/message-ratchet.js:172-244 | a sent message opens if and only if it was not accepted and either its key is stored (when passed over) or its gaps are within MAX_SKIP; and then with its own plaintext |
| RatchetRuns.LostOnlyToLaterTraffic | clients/web/src/lib/crypto/message-ratchet.js:241-243 | a passed-over message is lost only after the peer sent at least 2000 later ones, and every key still stored belongs to a later message |
| RatchetSecrecy.PastKeysAreGone | clients/web/src/lib/crypto/message-ratchet.js:172-261 | forward secrecy: an end's whole state does not give the key of any message it has sent or accepted |
| RatchetHealing.HealedOutOfReach | clients/web/src/lib/crypto/message-ratchet.js:246-261 | recovery: once the two keys an end works with were minted after a leak of both ends' states, the X3DH secret and every earlier private key, a listener cannot compute its root, its sending chain or its next message key |
| RatchetHealing.HealsExactlyWhen | clients/web/src/lib/crypto/message-ratchet.js:208-213 | an end heals at exactly the step at which it accepts a message under a ratchet key minted after the leak |
| RatchetHealing.HealedForGood | clients/web/src/lib/crypto/message-ratchet.js:246-261 | and stays healed whatever happens later |
| RatchetHealing.LaterMessagesOutOfReach | clients/web/src/lib/crypto/message-ratchet.js:143-170 | no message it sends from then on has a key the listener can compute |
| RatchetHealing.FirstAnswerStillReadable | clients/web/src/lib/crypto/message-ratchet.js:246-255 | one step of one end is not enough: the peer's first chain after the leak is still within reach |
| X3dh.StartedExactlyWhenSigned | clients/web/src/lib/crypto/signal-crypto.js:279-300 | a session is started from a bundle if and only if its identity key signed both its identity DH key and its signed prekey |
| X3dh.SecretReachableExactlyWhen | clients/web/src/lib/crypto/signal-crypto.js:302-318 | the shared secret can be computed exactly by whoever knows a private key of each of the exchanges, the one-time one included when there is one |
| X3dh.AgreementNamesBoth | clients/web/src/lib/crypto/signal-crypto.js:320-330 | the associated data names initiator, then responder, and the chain is seeded with the exchange of ephemeral key and signed prekey |
| X3dh.AnsweredExactlyWhen | clients/web/src/lib/crypto/signal-crypto.js:347-369 | an initial message is answered if and only if it is for the current signed prekey, the prekey it names is held and both keys import, with the reason of each refusal |
| X3dh.PrekeyForgottenExactlyWhen | clients/web/src/lib/crypto/signal-crypto.js:347-386 | a held one-time prekey is forgotten if and only if the message names the current signed prekey and both its keys import |
| X3dh.PrekeySurvivesBadKey | clients/web/src/lib/crypto/signal-crypto.js:365-386 | an identity and a message whose ephemeral key does not import: refused, and the prekey stays |
| X3dh.AgreementLaw | clients/web/src/lib/crypto/signal-crypto.js:299-393 | a message started from a true bundle is answered, and both ends get the same secret, associated data and bootstrap exchange |
| X3dh.DeviceIdentity.BuildPublishPayload | clients/web/src/lib/crypto/signal-crypto.js:208-243 | the payload shows the device's own signed keys and those requested one-time prekeys it still holds |
| X3dh.OfferedExactly | clients/web/src/lib/crypto/signal-crypto.js:216-225 | offered are exactly the requested one-time prekeys still held |
| X3dh.WithMoreHolds | clients/web/src/lib/crypto/signal-crypto.js:245-252 | each new private key is held under the next id, in order |
| X3dh.TopUpOffersTheNewKeys | clients/web/src/lib/crypto/signal-crypto.js:245-254 | a top-up offers exactly the keys it made |
| X3dh.DeviceIdentity.GenerateMoreOneTimePrekeys | clients/web/src/lib/crypto/signal-crypto.js:245-262 | new keys get ids never issued before and the payload offers exactly those |
| X3dh.DeviceIdentity.RespondToSession | clients/web/src/lib/crypto/signal-crypto.js:347-393 | the answer, with the used one-time prekey forgotten on success and nothing forgotten on a refusal |
| Prekeys.PublishedExactlyWhen | services/auth-service/app/prekeys.py:104-265 | a bundle is accepted if and only if its identity key is the one on file, signed both other keys, no other identity DH key is on file, and the one-time prekeys fit under the cap with fresh ids; and then exactly what it says is on file |
| Prekeys.PublishRefusedWhy | services/auth-service/app/prekeys.py:104-265 | each reason given for a refusal is a true one |
| Prekeys.InsertedExactlyWhen | services/auth-service/app/prekeys.py:251-265 | one-time prekeys go in if and only if no id repeats or is on file, unused and in order |
| Prekeys.BundleHandsOutFirstUnused | services/auth-service/app/prekeys.py:277-379 | a bundle carries the id and key of the first unused row of the device, and exactly that row is then marked used |
| Prekeys.BundleWithoutPrekey | services/auth-service/app/prekeys.py:277-379 | with no unused row it carries none and nothing is marked |
| Prekeys.BundleIsOnFile | services/auth-service/app/prekeys.py:345-379 | everything else in it is what the device has on file |
| Prekeys.PrekeyServer.PublishBundleAtomically | services/auth-service/app/prekeys.py:161-194 | either everything of a bundle is on file or nothing changed |
| Prekeys.PrekeyServer.AddOneTimePrekeys | services/auth-service/app/prekeys.py:231-265 | refuses over 200 unused keys and writes nothing then; stops at the first id on file, leaving exactly the rows before it |
| Prekeys.PrekeyServer.GetBundle | services/auth-service/app/prekeys.py:277-379 | hands out the oldest unused one-time prekey and marks it used; nothing is consumed for an incomplete device |
| BootstrapRuns.RunInv | services/auth-service/app/prekeys.py:161-379 | every run of publishing, topping up, fetching and answering keeps each published prekey backed by its device or spent |
| BootstrapRuns.HandedOutOnce | services/auth-service/app/prekeys.py:277-310 | no one-time prekey goes to two initiators |
| BootstrapRuns.NamesPrekeyExactlyWhenOneWasUnused | services/auth-service/app/prekeys.py:277-379 | over runs, a started session names a one-time prekey if and only if the device had an unused one when its bundle was fetched, namely the first |
| BootstrapRuns.PoolNeverOverfull | services/auth-service/app/prekeys.py:243-254 | over runs no device ever has more than 200 unused one-time prekeys |
| BootstrapRuns.AnsweredExactlyWhenUnspent | clients/web/src/lib/crypto/signal-crypto.js:299-393 | an initial message built from a fetched bundle is answered if and only if its one-time prekey was not used up, and then both ends agree |
| BootstrapRuns.PrekeySpentExactlyWhen | clients/web/src/lib/crypto/signal-crypto.js:347-386 | at any point of any run a message naming a held prekey uses it up if and only if it is well formed, and otherwise changes nothing |
| BootstrapRuns.RefusalSpendsNothing | clients/web/src/lib/crypto/signal-crypto.js:347-386 | after a refused message a genuine one naming the same prekey is still answered, both ends agreeing |
| BootstrapRuns.SpentIsRefused | clients/web/src/lib/crypto/signal-crypto.js:347-369 | once a prekey was used, every message naming it is refused for good |
| SessionManagers.OutboundExactlyWhen | clients/web/src/lib/messaging/sessions.ts:121-151 | a session to send on is there or is started if and only if it was cached, stored, or the bundle fetched is signed by its owner; a bundle that is not leaves none |
| SessionManagers.InboundExactlyWhen | clients/web/src/lib/messaging/sessions.ts:158-206 | no session is set up for a claimed sender unless identity key, DH key and signature are those on file and the handshake is answered |
| SessionManagers.OthersUntouched | clients/web/src/lib/messaging/sessions.ts:121-233 | nothing done with one peer touches the session with another |
| SessionManagers.SessionManager.Restore | clients/web/src/lib/messaging/sessions.ts:107-119 | the cached session, else the persisted one, else none |
| SessionManagers.SessionManager.EnsureOutbound | clients/web/src/lib/messaging/sessions.ts:121-151 | an existing session is used as it is; otherwise one is started, persisted and its initial message kept pending; errors change nothing |
| SessionManagers.SessionManager.Encrypt | clients/web/src/lib/messaging/sessions.ts:173-187 | the wire carries the pending initial message, and the session is persisted after the ratchet moved |
| SessionManagers.SessionManager.Decrypt | clients/web/src/lib/messaging/sessions.ts:189-233 | after a success the session is persisted as cached and the pending initial message is gone; each refusal leaves exactly what the source leaves |
| SessionRuns.ManagersRefineBareRatchet | clients/web/src/lib/messaging/sessions.ts:121-233 | whatever two managers go through, their ratchets go through a run of the bare Double Ratchet |
| SessionRuns.InitRidesAlong | clients/web/src/lib/messaging/sessions.ts:121-187 | while the responder has no session, every envelope of the initiator carries its initial message, and so will the next |
| SessionRuns.InitStopsExactlyWhenHeard | clients/web/src/lib/messaging/sessions.ts:180-231 | the initial message rides along exactly until the initiator has accepted something |
| SessionRuns.FirstArrivalBootstraps | clients/web/src/lib/messaging/sessions.ts:189-233 | whichever of them arrives first sets the session up, and decrypts if and only if its number is within MAX_SKIP |
| SessionManagers.ReloadInvisibleExactlyWhen | clients/web/src/lib/messaging/sessions.ts:99-119 | a reload shows in a session exactly when it was cached and is not what was persisted last |
| SessionRuns.ReloadsInvisibleExactlyWhen | clients/web/src/lib/messaging/sessions.ts:99-233 | in any run a reload is invisible to the initiator, and to the responder if and only if it has no session or has accepted an envelope |
| SessionRuns.UnsavedSessionIsLost | clients/web/src/lib/messaging/sessions.ts:206-231 | otherwise, when the handshake used a one-time prekey, every envelope that can arrive after the reload is refused |
| SessionRuns.UnsavedSessionIsReachable | clients/web/src/lib/messaging/sessions.ts:206-227 | the init arriving with a ciphertext that is refused leads there |
| TransportChains.TransportChain.KeyForGeneration | clients/web/src/lib/crypto/double-ratchet.js:94-108 | refuses below the index and changes nothing; otherwise walks to the target, keeps only the chain key there and returns its message key |
| TransportChains.WhereItStands | clients/web/src/lib/crypto/double-ratchet.js:82-109 | after any requests the chain holds the seed walked to its index, the largest target asked for |
| TransportChains.SeededAlikeAnswerAlike | clients/web/src/lib/crypto/double-ratchet.js:94-121 | two chains seeded alike give the same key exactly for the same generation, whatever each was asked before |
| TransportChains.AnsweredExactlyWhenNotBehind | clients/web/src/lib/crypto/double-ratchet.js:94-100 | a generation is answered if and only if no later one was asked for, so answered generations never decrease |
| TransportChains.EarlierGenerationsGone | clients/web/src/lib/crypto/double-ratchet.js:74-81 | what the chain keeps does not give the key of any earlier generation |
| Rotation.ElectedIsMinimum | clients/web/src/lib/crypto/rotation.js:24-34 | an identity wins if and only if an entry of its own is preceded by nobody under known join time, then identity |
| Rotation.BelowIsLexicographic | clients/web/src/lib/crypto/rotation.js:31 | identities compare by code units at the first difference, a prefix first |
| Rotation.WinnerJoinedFirst | clients/web/src/lib/crypto/rotation.js:28-33 | the winner joined no later than anybody known, and has the least identity of those who joined when it did |
| Rotation.OrderDoesNotMatter | clients/web/src/lib/crypto/rotation.js:24-34 | clients that see the same people elect the same one |
| Rotation.UnknownLosesToKnown | clients/web/src/lib/crypto/rotation.js:15-23 | an unknown join time wins only when all are unknown |
| Rotation.NewcomerTakesOverExactlyWhen | clients/web/src/lib/crypto/rotation.js:24-34 | somebody joining becomes the rotator if and only if they come before the present one |
| Rotation.FingerprintConvergence.SetOwnFingerprint | clients/web/src/lib/crypto/rotation.js:57-59 | our own fingerprint changes and nothing else |
| Rotation.FingerprintConvergence.RecordPeerFingerprint | clients/web/src/lib/crypto/rotation.js:61-63 | one peer's latest report replaces its earlier one |
| Rotation.FingerprintConvergence.MismatchFraction | clients/web/src/lib/crypto/rotation.js:70-77 | the share of recorded peers that differ from our own, 0 without evidence |
| Rotation.FingerprintConvergence.Decide | clients/web/src/lib/crypto/rotation.js:89-100 | waits, accepts, asks for one retry, then offers to rejoin |
| Rotation.DecidedExactlyWhen | clients/web/src/lib/crypto/rotation.js:89-100 | waits exactly while somebody is missing; a single disagreement after that is a retry the first time and an offer to rejoin from then on |
| Rotation.ConvergedExactlyWhen | clients/web/src/lib/crypto/rotation.js:70-93 | "converged" if and only if enough peers reported and, our own fingerprint being set, each reported that one |
| Rotation.RetriesOnceThenPrompts | clients/web/src/lib/crypto/rotation.js:89-100 | driven by any inputs one instance retries at most once, and offers to rejoin only after it |
| Rotation.DisagreementIsAnswered | clients/web/src/lib/crypto/rotation.js:89-100 | driven by any inputs, a disagreement with everybody heard from is a retry if none was asked for before, and an offer to rejoin from then on |
| GroupClients.GroupE2EE.EnsureSession | clients/web/src/lib/crypto/group-e2ee.js:168-189 | the session with a peer, started from its bundle if there is none; a failure changes nothing |
| GroupClients.GroupE2EE.SealAndSendRoomKey | clients/web/src/lib/crypto/group-e2ee.js:289-307 | the key sealed for one peer under the generation's transport key, with the initial message of a new session |
| GroupClients.GroupE2EE.Rotate | clients/web/src/lib/crypto/group-e2ee.js:309-358 | every peer in turn, unreachable ones reported and passed over, then the key applied to the keyring and the generation committed |
| GroupClients.GroupE2EE.OnMembershipChanged | clients/web/src/lib/crypto/group-e2ee.js:258-287 | nothing for an unchanged membership, a rotation only at the elected client, the expected count corrected |
| GroupClients.GroupE2EE.RequestSessionReset | clients/web/src/lib/crypto/group-e2ee.js:379-387 | one request while one is pending |
| GroupClients.GroupE2EE.HandleRoomKey | clients/web/src/lib/crypto/group-e2ee.js:402-463 | the branches of a room-key message: refused handshake, missing session, stale generation, bad tag, accepted |
| GroupClients.GroupE2EE.AcceptRoomKey | clients/web/src/lib/crypto/group-e2ee.js:439-459 | the opened key recorded, applied to the keyring for everybody present, and the convergence of its generation kept or started |
| GroupClients.GroupE2EE.HandleSessionReset | clients/web/src/lib/crypto/group-e2ee.js:465-486 | within the cooldown nothing; otherwise the session is dropped and the current key re-delivered |
| GroupClients.GroupE2EE.HandleFingerprint | clients/web/src/lib/crypto/group-e2ee.js:488-520 | a proof recorded as agreeing only if it is the MAC under the key held, and the verdict acted on |
| GroupDelivery.OthersExactly | clients/web/src/lib/crypto/group-e2ee.js:323 | the recipients are everybody listed but oneself, as often as listed |
| GroupDelivery.OthersNumber | clients/web/src/lib/crypto/group-e2ee.js:282 | their number is that of the other identities |
| GroupDelivery.EnsuredExactlyWhen | clients/web/src/lib/crypto/group-e2ee.js:168-189 | a session with a peer is there or is started if and only if there was one or its bundle is signed by its owner |
| GroupDelivery.GreetedExactlyWhen | clients/web/src/lib/crypto/group-e2ee.js:198-224 | no session is set up for a claimed sender unless identity key, DH key and signature are those on file and the handshake is answered |
| GroupDelivery.SealedForExactlyWhen | clients/web/src/lib/crypto/group-e2ee.js:289-307 | a peer is sent a key if and only if its session is not past the generation or can be started; nobody else's session changes |
| GroupDelivery.SealedOnItsSession | clients/web/src/lib/crypto/group-e2ee.js:289-307 | what is sealed carries the handshake of the session it was sealed on |
| GroupDelivery.RotatedReachesEverybody | clients/web/src/lib/crypto/group-e2ee.js:309-358 | a rotation sends the new key to every other participant who can be reached and to nobody else, reports exactly the rest, expects everybody, and proves possession |
| GroupDelivery.RotatedFillsSlots | clients/web/src/lib/crypto/group-e2ee.js:344 | the key is then in the slot of everybody in the call, other generations' slots untouched |
| GroupDelivery.AcceptedFillsSlots | clients/web/src/lib/crypto/group-e2ee.js:442-445 | likewise when a room key is taken in |
| GroupDelivery.AcceptedConverges | clients/web/src/lib/crypto/group-e2ee.js:446-459 | a new generation starts its convergence expecting everybody else, a repeat keeps what was recorded |
| GroupDelivery.NewsExactlyWhen | clients/web/src/lib/crypto/group-e2ee.js:259-270 | membership changed if and only if somebody is listed more or less often |
| GroupDelivery.MembershipMintsExactlyWhen | clients/web/src/lib/crypto/group-e2ee.js:258-287 | in any reachable call the same people mint nothing, and a change mints the next generation at the rotator alone |
| GroupDelivery.NotedExpectsEverybody | clients/web/src/lib/crypto/group-e2ee.js:281-283 | a convergence under way is corrected to expect everybody now in the call |
| GroupDelivery.ResetHonouredExactlyWhen | clients/web/src/lib/crypto/group-e2ee.js:476-485 | a reset is honoured if and only if none from that peer was in the last three seconds, and then drops the session and re-delivers |
| GroupDelivery.HandshakeAnsweredOnce | clients/web/src/lib/crypto/group-e2ee.js:217-233 | over a whole call, reconnects included, an initial message that used a one-time prekey sets up one session |
| GroupDelivery.RejoinExactlyWhen | clients/web/src/lib/crypto/group-e2ee.js:402-437 | an offer to rejoin exactly when there is a session and the message does not open on it, a request to reset exactly when there is none |
| GroupDelivery.ProofIsRecorded | clients/web/src/lib/crypto/group-e2ee.js:491-501 | a proof is recorded as agreeing if and only if it is its sender's MAC under the key held, and changes nobody else's record |
| GroupDelivery.LastProofConverges | clients/web/src/lib/crypto/group-e2ee.js:491-502 | the last expected proof of the key held, with nobody disagreeing, gives "converged" |
| GroupDelivery.DisagreementMintsExactlyWhen | clients/web/src/lib/crypto/group-e2ee.js:508-519 | in any reachable call a retry verdict mints the next generation at the rotator and nothing elsewhere |
| GroupRuns.AfterGood | clients/web/src/lib/crypto/group-e2ee.js:258-520 | every run keeps: each client holds the key minted for its generation, only the rotator sends keys, every agreeing record is backed by a proof sent for that key |
| GroupRuns.SameGenerationSameKey | clients/web/src/lib/crypto/group-e2ee.js:309-486 | two clients at one generation hold one room key, through loss, repetition, forged room-key messages, resets, reconnects and retries |
| GroupRuns.GenerationKeepsItsKey | clients/web/src/lib/crypto/group-e2ee.js:309-486 | and a generation keeps its key over the whole call |
| GroupRuns.ProofMeansHeld | clients/web/src/lib/crypto/group-e2ee.js:365-370 | whoever sent a proof held that key at that generation when sending it |
| GroupRuns.ConvergedMeansHeld | clients/web/src/lib/crypto/group-e2ee.js:488-502 | "converged" with our own fingerprint set means at least the expected number of peers are recorded and each held this very key at this generation |
| GroupRuns.ResetRecovers | clients/web/src/lib/crypto/group-e2ee.js:465-486 | what the rotator answers to a reset opens at whoever asked, and brings them to its key and generation |
| GroupRuns.LoneReconnectHeals | clients/web/src/lib/crypto/group-e2ee.js:406-486 | in any reachable call a client without a session asks when a room key arrives, the request may reach the rotator, and the answer's arrival levels the two |
| GroupSessions.SessionLasts | clients/web/src/lib/crypto/group-e2ee.js:402-486 | over any stretch of a run without a reconnect of this end or a reset from that peer, the session stays the same and its index never falls |
| GroupSessions.GenerationsNeverFall | clients/web/src/lib/crypto/group-e2ee.js:418-440 | on one session, over any run, no room key is taken in below a generation processed before, whether that one was taken in or refused |
| GroupSessions.GenuineRoomKeyOpensExactlyWhen | clients/web/src/lib/crypto/group-e2ee.js:402-440 | in any reachable call a room-key message really sent opens if and only if there is a session to read it in, from the handshake it was sealed on, whose index is at most its generation |
| GroupSessions.FreshSessionAnsweredExactlyWhen | clients/web/src/lib/crypto/group-e2ee.js:168-242 | the initial message of a new session is answered if and only if its one-time prekey is unspent, and then it is the same handshake |
| GroupSessions.OneForgeryBlocks | clients/web/src/lib/crypto/group-e2ee.js:418-437 | a refused forgery in the rotator's name blocks every genuine room key of a lower generation |
| GroupRuns.StepwiseRotationIsRotate | clients/web/src/lib/crypto/group-e2ee.js:309-358 | a rotation taken one delivery at a time ends where the client's own loop ends, having sent the same |
| GroupRuns.RotatorReconnectSplits | clients/web/src/lib/crypto/group-e2ee.js:109-115 | a rotator that lost its state mints generation 0 again, beside a client still holding the first one |
| GroupSessions.FirstRotation | clients/web/src/lib/crypto/group-e2ee.js:309-461 | a run of any two-party call that puts both ends at generation 0 with one key |
| GroupSessions.SplitIsReachable | clients/web/src/lib/crypto/group-e2ee.js:109-115 | and that run, followed by a reconnect of the rotator and its next rotation, ends with two keys at generation 0 |
| GroupMedia.FramesOpenAtSameGeneration | clients/web/src/lib/crypto/group-e2ee.js:344-346 | in any reachable call what a client seals frames under is the key minted for its generation, and any client at that generation holds it in the shared slot |
| GroupMedia.SlotsHoldTheirGenerations | clients/web/src/lib/crypto/group-e2ee.js:439-445 | every slot of every client holds a key minted for a generation of that slot's index |
| Keyring.GroupKeyProvider.ApplyRoomKey | clients/web/src/lib/crypto/key-provider.ts:44-58 | the shared slot and each registered identity's slot of that generation get the key, no other slot changes |
| Keyring.SlotHoldsLastWritten | clients/web/src/lib/crypto/key-provider.ts:44-58 | after any calls a slot is filled exactly if some call wrote it, with the last such call's key |
| Keyring.RecentGenerationsStay | clients/web/src/lib/crypto/key-provider.ts:44-58 | with growing generations the last four stay in their slots with their own keys, for everybody registered at them |
| Keyring.FourBackIsOverwritten | clients/web/src/lib/crypto/key-provider.ts:44-58 | the fourth generation back is gone for everybody the newest registers |
| TokenRotation.AuthServer.TokenRefresh | services/auth-service/app/routers/auth.py:133-176 | an invalid token or inactive device is turned away, a superseded token revokes every device of the member, otherwise the heartbeat is noted and a new token recorded |
| TokenRotation.RefreshIsCalls | services/auth-service/app/routers/auth.py:157-172 | a refresh is exactly these calls on the device tables: revoke all, or heartbeat and new token |
| TokenRotation.RefreshKeepsAlive | services/auth-service/app/routers/auth.py:166-172 | after a granted refresh no sweep of the next fourteen days expires the device |
| TokenRotation.GrantIsCurrent | services/auth-service/app/routers/auth.py:171-176 | a grant carries the new current token and the access token asked for |
| TokenRotation.AuthServer.OtpVerified | services/auth-service/app/routers/auth.py:104-130 | a login registers the device and records its first token; a refused one changes nothing |
| TokenRotation.RefreshIsRotation | services/auth-service/app/routers/auth.py:133-176 | seen from one device, a refresh over the device tables is the refresh the interleavings use |
| TokenRotation.ReuseRevokesEveryDevice | services/auth-service/app/routers/auth.py:157-164 | reuse leaves the member without an active device, moves the version by one and touches nobody else |
| TokenRotation.Session.EnterCritical | clients/web/src/lib/api/client.ts:186-200 | inside the lock: adopt a usable stored access token, else ask with the stored refresh token, else end |
| TokenRotation.UsableExactlyWhen | clients/web/src/lib/api/client.ts:42-46 | a token is usable if and only if it is unexpired for the next thirty seconds |
| TokenRotation.NewTabStartsWith | clients/web/src/lib/api/client.ts:173-179 | a tab opened while a usable token is stored starts with it |
| TokenRotation.TurnTakenExactlyWhen | clients/web/src/lib/api/client.ts:188-200 | a tab whose turn it is adopts another tab's usable token without asking the server, asks only when there is none, and gives up when nothing is stored |
| TokenRotation.AnswerIsStored | clients/web/src/lib/api/client.ts:201-219 | a grant replaces both stored tokens, a refusal clears them, other failures leave them, and the lock is given up |
| TokenRotation.Session.Settle | clients/web/src/lib/api/client.ts:201-216 | a grant is stored, a 401 clears the session, other errors leave everything |
| TokenRotation.RunInv | clients/web/src/lib/api/client.ts:186-221 | only the lock's holder has a request under way, and what is stored or on its way back is the server's current token |
| TokenRotation.ReuseNeverDetected | services/auth-service/app/routers/auth.py:150-165 | no interleaving of any number of tabs reaches the branch that revokes every device |
| TokenRotation.RequestsCarryCurrentToken | clients/web/src/lib/api/client.ts:198-207 | every request under way carries the server's current token, and there is only one |
| TokenRotation.SignedOutOnlyWhenEnded | clients/web/src/lib/api/client.ts:208-213 | a tab is signed out exactly when its token expired or the device was revoked |
| TokenRotation.ReuseExactlyWhenSuperseded | services/auth-service/app/routers/auth.py:142-165 | in any state a step trips reuse detection if and only if a valid, superseded token of an active device reaches the server |
| TokenRotation.WithoutLocksReuseIsReachable | clients/web/src/lib/api/client.ts:48-58 | two tabs without locks reach it |
| TokenRotation.LostGrantReuseIsReachable | clients/web/src/lib/api/client.ts:201-215 | one tab whose grant is lost reaches it |
| TokenRotation.RacingLoginReuseIsReachable | services/auth-service/app/routers/auth.py:125-130 | a login during a refresh reaches it |
| RateLimiter.SlidingWindowLimiter.SweepLocked | services/auth-service/app/rate_limit.py:39-47 | exactly the keys whose window has wholly passed are dropped |
| RateLimiter.SlidingWindowLimiter.Check | services/auth-service/app/rate_limit.py:49-62 | the verdict and the new deques, sweeping and pruning included |
| RateLimiter.LimiterIsPlainLog | services/auth-service/app/rate_limit.py:49-62 | over any run with non-decreasing times every verdict is that of a log that forgets nothing: allowed if and only if fewer than the maximum were accepted within the window |
| RateLimiter.NoWindowOverfull | services/auth-service/app/rate_limit.py:23-27 | no closed window of that length, wherever it lies, holds more than the maximum |
| RateLimiter.SweepKeepsExactlyRecent | services/auth-service/app/rate_limit.py:17-47 | over 1024 keys a check leaves, besides its own key, exactly those with an event in the window; below that it forgets none |
| RateLimiter.SweepUnobservable | services/auth-service/app/rate_limit.py:39-47 | sweeping forgets only what pruning would |
| DeviceRegistry.DeviceService.BumpDeviceVersion | services/auth-service/app/devices.py:53-70 | the counter moves by one, from 0 when there is none, and is returned |
| DeviceRegistry.DeviceService.RegisterOrTouchDevice | services/auth-service/app/devices.py:155-218 | the branches of a login; a refusal of any kind leaves both tables as they were |
| DeviceRegistry.DeviceService.RevokeDevice | services/auth-service/app/devices.py:242-261 | owner only, once, and the row as it was comes back |
| DeviceRegistry.DeviceService.AdminRevokeDevice | services/auth-service/app/devices.py:264-279 | the same without the owner check |
| DeviceRegistry.DeviceService.RevokeAllDevices | services/auth-service/app/devices.py:282-302 | exactly the active devices of the member, one version step for all, none for none |
| DeviceRegistry.DeviceService.ExpireStaleWebDevices | services/auth-service/app/devices.py:305-329 | exactly the silent active web devices, and no version moves |
| DeviceRegistry.DeviceService.SetRefreshJti | services/auth-service/app/devices.py:221-228 | only that device's recorded token changes |
| DeviceRegistry.DeviceService.TouchHeartbeat | services/auth-service/app/devices.py:231-239 | only that device's last sight changes |
| DeviceRegistry.LoginExactlyWhen | services/auth-service/app/devices.py:155-213 | a login goes through if and only if the platform is known and the device is one's own and not revoked, or new with fewer than two active; with the reason of each refusal |
| DeviceRegistry.LoginLeaves | services/auth-service/app/devices.py:183-213 | it leaves the device active, on that platform, seen now, with the token it had |
| DeviceRegistry.RevokedExactlyWhen | services/auth-service/app/devices.py:242-279 | only the owner or an admin revokes, and nothing else changes |
| DeviceRegistry.AllRevokedExactly | services/auth-service/app/devices.py:282-302 | exactly the active devices of the member are revoked |
| DeviceRegistry.SweepExpiresExactlyWhen | services/auth-service/app/devices.py:305-329 | a row is expired if and only if it is an active web device not seen for fourteen days |
| DeviceRegistry.DeviceInUseStaysActive | services/auth-service/app/devices.py:155-329 | over any run that does not revoke it, a device stays active as long as no sweep finds it silent for fourteen days |
| DeviceRegistry.SilentDeviceExpires | services/auth-service/app/devices.py:305-329 | and the sweep that does expires it |
| DeviceRegistry.VersionIsChangeSignal | services/auth-service/app/devices.py:155-329 | the version moves, by one, at exactly the steps where a device joins the member's list or is revoked |
| DeviceRegistry.VersionCountsTellingSteps | services/auth-service/app/devices.py:53-70 | over a run the version counts those steps, so it never decreases |
| DeviceRegistry.EqualVersionsTrustworthy | services/auth-service/app/devices.py:73-94 | equal versions at two times: every device active later was active before, and whatever changed was expired |
| DeviceRegistry.RevokedForGood | services/auth-service/app/devices.py:177-181 | over a run rows and owners stay, and a revoked device stays revoked |
| DeviceRegistry.CapKeptExactlyWhen | services/auth-service/app/devices.py:183-205 | a member within the cap stays within it at a step if and only if the step is not the return of an expired device beside two active ones |
| DeviceRegistry.CapHoldsWithoutReactivation | services/auth-service/app/devices.py:196-213 | over any run without such a login at most two devices are active |
| DeviceRegistry.CapCanBreak | services/auth-service/app/devices.py:183-194 | a run that ends with three active devices |
| Usernames.UsernameService.IsParkedForOthers | services/auth-service/app/usernames.py:88-97 | whether somebody else released the name less than thirty days ago |
| Usernames.UsernameService.SetUsername | services/auth-service/app/usernames.py:104-146 | the branches of a claim; a refusal leaves both tables as they were, the release undone with it |
| Usernames.OwnNameAgain | services/auth-service/app/usernames.py:112-139 | claiming the name one holds changes nothing |
| Usernames.RefusedExactlyWhy | services/auth-service/app/usernames.py:110-133 | the reason of each refusal: held by somebody else, free but parked, no member, or a release at this instant |
| Usernames.OneHolder | services/auth-service/app/usernames.py:112-114 | in every sequential run at most one account holds a name |
| Usernames.ParkedThirtyDays | services/auth-service/app/usernames.py:88-116 | a name one account held and another holds now was given up, and thirty days passed since |
| Usernames.HistoryIsReleases | services/auth-service/app/usernames.py:128-133 | every history row is a release that happened in the run, at its time |
| Usernames.GivenUpIsRecorded | services/auth-service/app/usernames.py:128-133 | every release of the run is in the history for good |
| Usernames.FreeNameClaimedExactlyWhen | services/auth-service/app/usernames.py:110-146 | a member's claim of a free name succeeds if and only if nobody else gave it up within thirty days and the member's own old name was not released at this very instant |
| Usernames.ReleaserMayReclaim | services/auth-service/app/usernames.py:18-20 | within the thirty days whoever gave the name up may take it back |
| Usernames.ReclaimCanBeRefused | services/auth-service/app/usernames.py:88-97 | a run after which the first holder is refused, because another member held and released the name since |
| ByteText.ConcatBytes | clients/web/src/lib/crypto/signal-crypto.js:56-65 | the buffer holds the parts one after another |
| ByteText.HeaderBytesInjective | clients/web/src/lib/crypto/message-ratchet.js:83-92 | equal authenticated bytes mean equal session data, ratchet key, pn and n, even for a ratchet key text somebody made up |
| ByteText.DigitsStandFor | clients/web/src/lib/crypto/message-ratchet.js:84-96 | the decimal digits stand for the number, without a leading zero |
| ByteText.HeaderLooksLike | clients/web/src/lib/crypto/message-ratchet.js:84-96 | key, pn and n in that order, separated by bars |
| ByteText.SkippedKeyInjective | clients/web/src/lib/crypto/message-ratchet.js:94-96 | equal names mean equal ratchet key and number |
| ByteText.OrderedForSafetyNumber | clients/web/src/lib/crypto/signal-crypto.js:135-157 | refuses keys of the wrong length; otherwise both keys, the smaller first |
| ByteText.SmallerFirst | clients/web/src/lib/crypto/signal-crypto.js:142-157 | the key that is not the larger one comes first |
| ByteText.SafetyPreimageIsThePair | clients/web/src/lib/crypto/signal-crypto.js:142-157 | both people hash the same bytes, and only that pair of identities gives them |

## Left out

- Arithmetic of X25519, Ed25519, HKDF, HMAC, AES-GCM and SHA-256, and randomness: replaced by free terms and fresh names.
- HTTP, WebSocket, LiveKit, IndexedDB and SQLite plumbing, timers, user interface, media, mail and push: outside the protocols.
- Base64 and length validation in the prekey service, email ownership and active-device checks of its router: they only add refusals before anything is written.
- Headers and generations that are not integers, and UTF-8 encoding: header fields and generations are integers, characters stand for their bytes.
- Object sharing between a session and its ratchet, transport chain or convergence object: sessions hold them as values, and the objects are proved against the same functions.
- SessionRuns.FirstArrivalBootstraps: does not cover simultaneous initiation, `reset` or lost storage, because two initiators each keep their own session and neither reads the other.
- One-time prekeys running dry, and replays of initial messages without one: such messages are answered again, as `BootstrapRuns.AnsweredExactlyWhenUnspent` allows.
- GroupRuns.SameGenerationSameKey: does not cover views that elect different rotators, overlapping rotations, or a key that failed to apply, because a generation may then be minted twice; nor a participant who runs other code.
- A bound on retries across generations: each rotation starts a new convergence instance.
- Concurrent edits of groups (`groups.ts`): equal revisions keep the local copy, so they need not converge.
- Dispatch of call messages on their type and addressee, and the callbacks for display, retry delays and timeouts of bundle fetches: each handler is modelled on messages meant for it.
- Participant identities containing a comma: the membership comparison joins identities with commas, the model compares them as collections.
- Username spelling rules (`validate`, `normalize`): the claim is modelled on names that passed them, or on their refusal.
- RateLimiter.SlidingWindowLimiter.Check: does not model the lock around it, the clock read before that lock, or floating-point rounding of time differences, because its runs are sequences of calls with non-decreasing times.
- Identity creation, pinning of safety numbers and the digest behind them: ByteText covers the bytes that are hashed.
- Creation times and listing order of devices, and members leaving the allowlist: no property depends on them.
