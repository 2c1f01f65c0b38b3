# RCOSCAN scanner feed screen — Dafny model

The application is one React Native screen (`App.tsx`). It shows the recent radio calls
of a scanner feed and can play a call's audio. Under the rendering sits a small amount of
sequential logic, and this project models it:

- **Playback controller** (`Playback.Player`). It holds one optional sound handle and the
  id of the call that handle plays. A tap on a row either toggles the playing call off or
  replaces the held sound with the tapped call's. The finish callback clears the session.
  The audio library is abstract: it hands out fresh numbered handles and records every
  create, stop and unload in a ghost log. Which awaited call throws during a tap is an
  input (`Fault`). A second ghost set, `abandoned`, collects the handles the player
  stopped referring to while they were still loaded. The invariant `Valid()` says that
  the loaded handles are exactly the held one plus the abandoned ones. So at most one
  loaded handle is one the player still refers to. The method `Playback.SwitchThenToggleOff` is a
  worked example: taps on a call a, then b, then b again log create a, stop a, unload a,
  create b, stop b, unload b (App.tsx:105-129), and end idle with nothing loaded.
- **Talkgroup directory** (`Directory`). The response's records, in iteration order, are
  folded into a map keyed by `num`. `Index` is that fold; the loop `Build` is proved
  equal to it; and lemmas give the key set and the last-record-wins rule.
- **Call feed** (`Feed`, `App.Screen`). The HTTP outcome and the parsed JSON body are
  inputs. `Normalise` is `Array.isArray(data) ? data : data.calls || []` under JSON's
  JavaScript truthiness. A thrown error, a non-ok status and a body that is not JSON all
  give the empty list. `Screen.FetchCalls` replaces the list wholesale and clears both
  spinner flags. `Screen.Poll` runs a series of fetches and keeps the last one's outcome.
- **Labels** (`Labels`). The decimal text of an integer, the duration `"{len}s"`, the
  talkgroup label with its two fallbacks, and the row button's Play/Stop caption.

Three behaviours of the code are worth stating outright:

- A natural finish clears the session but does **not** unload the sound (App.tsx:132-137).
  In the model that handle joins `abandoned`.
- An envelope whose `calls` is a truthy value that is not a list (say a string) makes the
  call list that value (App.tsx:59), not the empty list. `Feed.NonListEnvelopeKept`
  states this, and so the call list is modelled as a JSON value.
- The finish callback does not check which sound reports. A finish from an abandoned
  sound (one whose stop threw and that kept playing) clears the current session too.

## Model

| member | source | states |
|---|---|---|
| `Labels.NatToStringValue` | App.tsx:94 | the decimal text of a natural number is non-empty, all digits, has no leading zero (the text of 0 is exactly "0"), and denotes the number |
| `Labels.NatToStringInjective` | App.tsx:94 | two numbers with the same decimal text are equal |
| `Labels.IntToString` | App.tsx:100-102 | the text is non-empty; a non-negative integer prints as digits denoting it with no leading zero, and 0 prints as exactly "0"; a negative one prints as "-" followed by digits, not starting with 0, denoting its magnitude |
| `Labels.FormatDuration` | App.tsx:93-95 | the duration label ends in "s" and what precedes the "s" is digits denoting the length, with no leading zero; a length of 0 gives exactly "0s" |
| `Labels.TalkgroupName` | App.tsx:97-103 | the label is the entry's description when it exists and is non-empty, else its alpha when non-empty, else "Talkgroup " and the number (also when the number has no entry); it is never empty |
| `Labels.ButtonLabel` | App.tsx:146-163 | the caption is Stop exactly when the row's id equals the playing call id, and Play otherwise |
| `Labels.StopCountExact` | App.tsx:146-163 | with rows of distinct ids (the list's key), exactly one row reads Stop when the playing call is in the list and none otherwise |
| `Labels.UnknownTalkgroupRow` | App.tsx:93-103 | a call of talkgroup 100 with no directory entry and length 12 is labelled "Talkgroup 100" and "12s" |
| `Directory.IndexKeys` | App.tsx:37-40 | the directory's keys are exactly the `num` values of the records, and each key maps to an input record carrying that `num` |
| `Directory.IndexLastWins` | App.tsx:38-40 | a record that no later record shares its `num` with is the value of that key: the later record wins |
| `Directory.Build` | App.tsx:37-40 | the `forEach` loop filling a fresh map produces the fold `Index` of the records |
| `Feed.Normalise` | App.tsx:59 | a bare array is kept, an object's truthy `calls` is taken, anything else (including `null`) becomes `[]`; the result is always truthy |
| `Feed.FeedOutcome` | App.tsx:47-63 | a thrown network error, a non-ok status and a non-JSON body give `[]`; an ok JSON body gives its normalisation |
| `Feed.BareAndEnvelopeAgree` | App.tsx:59 | a list sent bare and the same list in an envelope's `calls` both give exactly that list |
| `Feed.NonListEnvelopeKept` | App.tsx:59 | an envelope whose `calls` is truthy but not a list yields that value, not `[]` |
| `Playback.Player.Valid` | App.tsx:29-30 | sound and playing id are set or cleared together; handles are fresh; the loaded handles are the held one plus the abandoned ones |
| `Playback.Player.AtMostOneLoaded` | App.tsx:105-143 | at most one loaded handle is one the player still refers to |
| `Playback.Player.constructor` | App.tsx:29-30 | both fields start null, with nothing created |
| `Playback.Player.StopAsync` | App.tsx:109 | a stop is recorded on the handle unless the call throws |
| `Playback.Player.UnloadAsync` | App.tsx:110 | an unload is recorded on the handle unless the call throws |
| `Playback.Player.CreateAsync` | App.tsx:123-126 | unless the call throws, a fresh handle is created for the url and recorded |
| `Playback.Player.ReleaseHeld` | App.tsx:117-120 | stop then unload of the held sound; a throw skips what follows; on success the handle is no longer loaded |
| `Playback.Player.Catch` | App.tsx:138-141 | both fields are cleared; a held handle that is still loaded is abandoned |
| `Playback.Player.PlayAudio` | App.tsx:105-143 | tapping the playing call stops and unloads its sound and clears both fields without creating anything; tapping another call stops and unloads the held sound before creating the new one, which becomes the session with the tapped id; any throw clears both fields; the invariant is kept |
| `Playback.Player.ToggleOff` | App.tsx:108-113 | the toggle-off branch: log extended by stop and unload of the held handle, both fields cleared, nothing created |
| `Playback.Player.Switch` | App.tsx:116-129 | the switch branch: release the held sound, if any, then create the tapped one; the events come in exactly that order |
| `Playback.Player.Load` | App.tsx:122-129 | once no referred-to sound is loaded, a created sound and the tapped id become the session; a throw clears both fields |
| `Playback.Player.OnPlaybackStatus` | App.tsx:132-137 | a loaded-and-finished report from any created sound clears both fields without unloading; the held handle becomes abandoned; any other report changes nothing |
| `Playback.Player.ButtonFor` | App.tsx:146-163 | a row reads Stop exactly when it is the playing call, and Play otherwise; when it reads Stop the sound is held and loaded |
| `App.Screen.constructor` | App.tsx:25-28 | the list and directory start empty, loading is on and refreshing is off |
| `App.Screen.FetchTalkgroups` | App.tsx:32-45 | delivered records replace the directory with their fold; a failure leaves it unchanged |
| `App.Screen.FetchCalls` | App.tsx:47-68 | the list becomes the fetch's outcome, independent of its old value, and both flags are cleared |
| `App.Screen.OnRefresh` | App.tsx:83-86 | the same fetch after raising the refresh flag; both flags end cleared |
| `App.Screen.Poll` | App.tsx:70-73 | after a series of completed fetches the list is the last one's outcome, so polling an unchanged response again leaves it unchanged |
| `App.Screen.TalkgroupLabel` | App.tsx:154 | the row's label is `TalkgroupName` of the current directory (description, then alpha, then "Talkgroup " and the number); it is never empty and is the fallback for an unknown talkgroup |

## Left out

- Network fetches and JSON parsing (App.tsx:34-35, 50, 57): they are I/O. The HTTP outcome and the parsed body are inputs of the model.
- The directory fetch's failure cases (thrown fetch, non-JSON body, missing `talkgroups`) are folded into `Directory.Response.Failed`. The loader does not check `response.ok`, and the model does not look at the status either. The order of `Object.values` is taken as given. The model assumes every record is an object with an integer `num`: a `null` record, whose `tg.num` throws and leaves the directory unchanged, and a record keyed by the string coercion of a missing or non-numeric `num` (such as `"undefined"`) are not modelled.
- The 10-second interval (App.tsx:73) and a manual refresh racing with it (App.tsx:83-86): timers and interleaving are not modelled. Fetches complete one after another, and the observable in-between state (`refreshing` true while a refresh runs) is not kept.
- Asynchrony inside `playAudio`: each tap runs to completion. React's stale closures and taps overlapping an unfinished tap are not modelled.
- The expo-av calls (App.tsx:109-110, 118-119, 123-126, 132) are abstract events on numbered handles. A throw from `setOnPlaybackStatusUpdate` is not modelled.
- Unmount cleanup (App.tsx:74-80): it reads the `sound` of the first render, so it never unloads anything. The model makes no claim about teardown.
- `formatTime` (App.tsx:88-91): it depends on `Date` and the locale.
- The frequency text (App.tsx:157): it is floating-point formatting.
- Rendering, the loading and empty views, and the style sheet (App.tsx:145-327), apart from the labels above.
- Logging (`console.log`, `console.error`).
- A talkgroup record whose `alpha` or `description` is `null` or missing is modelled with the empty string there. Both are falsy, so `||` treats them alike (App.tsx:100).
- `Labels.FormatDuration`: the text is exact only for lengths up to 2^53. Above that JavaScript prints the shortest digits that round-trip to the same double, padded with zeros, and from 10^21 on in exponent form; the model prints the exact digits instead. A length that is not a whole number is not modelled either.
- `Labels.IntToString`: the text is exact only for magnitudes up to 2^53. Above that JavaScript prints rounded digits padded with zeros, and from 10^21 on uses exponent form; the model prints the exact digits instead. Only integer talkgroup numbers are modelled.
