# DOORNA interaction core, modelled in Dafny

DOORNA is a touch-driven single-page app. A "door" covers the lobby; behind it, a home screen shows
frames (widgets) either as three swipeable pages or as a single page. Navigation is driven by a
multi-touch gesture recogniser:
- a pinch-out opens the door;
- a pinch-in retreats one layer;
- a two-finger pull-down returns to the lobby;
- a three-finger tap switches the view mode;
- a horizontal pan drags the door or turns pages.

The KEY frame is locked behind a four-digit PIN keypad. Text typed in the lobby is classified into a
frame type by a backend, or by an offline keyword router when the backend is unavailable. Frame
cards and list rows tell taps from long presses.

This project models that core. Each imperative handler of the source is a class whose fields are
the source's refs or state variables. Each method is proved equal to a pure step function on a
snapshot datatype, and the properties are proved about those functions. Lemmas over event traces
(`Run`) cover the properties that span several events.

A tapped frame card's type is an `Option<FrameType>`. The home grid's Gallery card names
`FrameType.GALLERY`, which is not a member of the enum, so its type is `undefined`; the model
writes that as `None`. Tapping it enters the expanded state with no active frame, and nothing is
rendered there.

| file | module | models |
|---|---|---|
| `types.dfy` | `DoornaTypes` | the enums, the item record, a JSON value with JavaScript truthiness |
| `gestures.dfy` | `Gestures` | the gesture recogniser's record and its touchstart / touchmove / touchend handlers |
| `navigation.dfy` | `Navigation` | the application's navigation state and every handler that changes it |
| `keypad.dfy` | `Keypad` | the PIN keypad |
| `router.dfy` | `Router` | the offline keyword router, the response sanitiser, and the choice between backend and fallback |
| `press.dfy` | `PressSignals` | the signals, inputs and 10 px tolerance shared by the two press recognisers |
| `glass_frame.dfy` | `GlassFramePress` | the frame card's tap / long-press recogniser |
| `long_pressable.dfy` | `LongPressablePress` | the list row's tap / long-press recogniser |
| `shell.dfy` | `Shell` | the window listeners feeding the recogniser and dispatching its gestures to navigation |

Modelling choices:
- Spacing is kept squared (`initialSpacingSq`), so no square root is needed. `Gestures.SquaredFormExact` proves that every threshold test on squares agrees with the source's test on distances.
- A velocity computed over a zero duration is `Infinity`, `-Infinity` or `NaN` in JavaScript. `Gestures.Speed` represents these values, and its comparisons follow JavaScript's, so the release handler has no precondition.
- A timer callback is an explicit input event. A touchstart overwrites the held timer handle without cancelling the timer. The overwritten timer becomes an "orphan" that still fires later.
- A touchmove with no touches would throw before writing anything. It is modelled as a step that changes nothing.

The design intent is at most one discrete gesture per physical touch session. The code gives a
weaker guarantee, and the model follows the code:
- Every touchstart re-opens the latch, including a finger added mid-gesture (`Gestures.AddedFingerReopensLatch`).
- The three-finger tap does not set the latch, and its test runs on every finger lift. One tap can therefore be reported once per lift (`Gestures.TapReportedPerLift`).
- The initial spacing is written only by a two-finger touchstart and is never cleared. A later session can therefore compare against a stale spacing (`Gestures.StaleSpacingAcrossSessions`).

What the code does guarantee is proved: between two touchstarts there is at most one pinch or
pull-down (`Gestures.LatchAllowsOneGesture`).

## Model

| member | source | states |
|---|---|---|
| DoornaTypes.FrameTypeName | types.ts:21-29 | every frame type has a non-empty run-time name |
| DoornaTypes.FrameTypeNameInjective | types.ts:21-29 | distinct frame types have distinct names |
| Gestures.Velocity | hooks/useDoornaGestures.ts:146-149 | the velocity times the duration is 1000·dx; a zero duration gives ±Infinity by the sign of dx, or NaN for dx = 0 |
| Gestures.SpacingSq | hooks/useDoornaGestures.ts:49-51 | the squared spacing of two touches is non-negative |
| Gestures.PinchInExact | hooks/useDoornaGestures.ts:81-84 | `scale < 0.65` holds iff the squared spacing is below 0.65² times the initial one |
| Gestures.PinchOutExact | hooks/useDoornaGestures.ts:81-91 | `scale > 1.5` holds iff the squared spacing exceeds 1.5² times the initial one |
| Gestures.PullBandExact | hooks/useDoornaGestures.ts:98-101 | a relative spacing change below 0.2 holds iff the squared spacing lies strictly between 0.8² and 1.2² times the initial one |
| Gestures.SquaredFormExact | hooks/useDoornaGestures.ts:80-101 | every spacing test of the move handler (positive spacing, pinch-in, pinch-out, the pull-down band 30..240) keeps its meaning in squared form |
| Gestures.StartStep | hooks/useDoornaGestures.ts:30-53 | touchstart opens the latch, clears the axis, restarts the clock, sets start and last point to the first touch, sets the count, raises the high-water mark to at least the count, and sets the spacing iff exactly two touches |
| Gestures.LockAxis | hooks/useDoornaGestures.ts:112-116 | the axis is decided once, only past the 5 px jitter, as horizontal iff \|dx\| > \|dy\| (ties vertical), and never changed afterwards |
| Gestures.MoveStep | hooks/useDoornaGestures.ts:55-133 | a latched or empty move changes nothing; at most one gesture is reported; pinch-in, then pinch-out, then pull-down decide a two-finger move in that priority; the latch closes iff one of them fires; only the last point, latch and axis change; a one-finger move locks the axis from its offset to the start point, and a pan is reported iff that axis is horizontal, carrying that offset |
| Gestures.EndStep | hooks/useDoornaGestures.ts:135-160 | a latched session reports nothing; a tap is reported iff three fingers were seen and 80 ≤ duration ≤ 300; otherwise a pan-end with dx and velocity iff one finger panned horizontally; count, high-water mark and axis reset only when no finger remains |
| Gestures.LatchAllowsOneGesture | hooks/useDoornaGestures.ts:63-107 | between two touchstarts at most one pinch or pull-down is reported (none once latched), and the latch is closed afterwards iff it was before or one was reported |
| Gestures.AxisDecidedOnce | hooks/useDoornaGestures.ts:111-129 | once the axis is set, no move changes it, and a vertical drag never reports a pan |
| Gestures.NewSessionStartsClean | hooks/useDoornaGestures.ts:154-159 | a release of all fingers followed by a touchstart gives an open latch, no axis and a high-water mark equal to the new count; only the spacing survives |
| Gestures.TapReportedPerLift | hooks/useDoornaGestures.ts:140-159 | inside the tap window, one finger lifted and then the other two together report the tap twice, and three fingers lifted one at a time report it three times |
| Gestures.AddedFingerReopensLatch | hooks/useDoornaGestures.ts:30-37 | a finger added after a pinch re-opens the latch, so one touch interaction reports two pinches |
| Gestures.StaleSpacingAcrossSessions | hooks/useDoornaGestures.ts:47-52 | a session started with three fingers pinches out against the spacing left by an earlier session |
| Gestures.PanEndExample | hooks/useDoornaGestures.ts:144-150 | a 200 px leftward drag over 200 ms reports a pan and then a pan-end at -1000 px/s |
| Gestures.PinchThresholds | hooks/useDoornaGestures.ts:80-95 | on a spacing of 100, 64 pinches in, 66 does nothing, 151 pinches out, 149 does nothing |
| Gestures.PullDownGating | hooks/useDoornaGestures.ts:80-108 | a two-finger drag down by 120 with steady spacing is a pull-down; with the spacing halved it is a pinch-in |
| Gestures.AxisLockExamples | hooks/useDoornaGestures.ts:112-128 | moves within the jitter choose no axis; a horizontal lock reports pans; a vertical lock never does |
| Gestures.TapWindowExamples | hooks/useDoornaGestures.ts:142-143 | a tap held 150 ms is reported, one held 50 ms or 400 ms is not |
| Gestures.Recognizer.constructor | hooks/useDoornaGestures.ts:13-25 | the record starts with every field zero, false or null |
| Gestures.Recognizer.TouchStart | hooks/useDoornaGestures.ts:30-53 | the handler's writes produce exactly `StartStep` of the old record |
| Gestures.Recognizer.TouchMove | hooks/useDoornaGestures.ts:55-133 | the handler's writes and early returns produce exactly `MoveStep` of the old record and its reports |
| Gestures.Recognizer.TouchEnd | hooks/useDoornaGestures.ts:135-160 | the handler's writes produce exactly `EndStep` of the old record and its reports |
| Navigation.HomeState | App.tsx:204 | the home screen is the paged one iff the mode is paged, the single one iff the mode is single |
| Navigation.OpenDoor | App.tsx:200-205 | the door slides off to the left, page 0, no drag, the home screen of the mode; nothing else changes |
| Navigation.ReturnToLobby | App.tsx:207-225 | lobby, no frame, page 0, no drag, door at (0, 0); nothing else changes |
| Navigation.ToggleViewMode | App.tsx:227-235 | the mode always flips; a home screen follows it; any other screen stays |
| Navigation.CloseExpanded | App.tsx:242-246 | no frame, no genre, the home screen of the mode; nothing else changes |
| Navigation.PageChange | App.tsx:291-296 | +1 iff dx < -W/4 or v < -500; otherwise -1 iff dx > W/4 or v > 500; otherwise 0 |
| Navigation.OnGesture | App.tsx:249-310 | pull-down returns home screens to the lobby; pinch-in closes the expanded frame or returns home screens to the lobby; pinch-out opens the door only in the lobby; three-finger tap toggles the mode; a live pan on the paged home sets only the drag offset to dx; pans act only in the lobby and the paged home |
| Navigation.FrameTap | App.tsx:313-321 | the locked KEY frame shows the keypad and becomes pending; any other frame, including an undefined one, becomes the active frame and expands |
| Navigation.FolderTap | App.tsx:323-327 | the NOTE frame expands on the chosen genre |
| Navigation.Unlock | App.tsx:329-337 | unlocked, keypad hidden, nothing pending; a pending frame is expanded; nothing else changes |
| Navigation.CancelKeypad | App.tsx:420-423 | keypad hidden and nothing pending; nothing else changes |
| Navigation.ItemLongPress | App.tsx:339-342 | the AI editor opens on the item |
| Navigation.CloseAIEdit | App.tsx:405-412 | no item is edited; back to the expanded frame if one is open, else the home screen of the mode |
| Navigation.SaveItem | App.tsx:196-198 | the item is appended and the stored items keep their order |
| Navigation.StepPreservesValid | App.tsx:298-307 | every handler keeps the page in 0..3, the home screen in step with the mode, and the keypad state coherent |
| Navigation.RunPreservesValid | App.tsx:298-307 | any sequence of handlers keeps those invariants |
| Navigation.ToggleTwiceRestores | App.tsx:227-235 | toggling the view mode twice restores the state |
| Navigation.PanEndPaging | App.tsx:290-309 | on the paged home a released pan turns at most one page, never past 3, and resets the drag, with nothing else changed; a backward swipe on page 0 is exactly the return to the lobby |
| Navigation.SwipePastLastPage | App.tsx:291-299 | a forward swipe on the third page (index 2) reaches index 3, one past the last page, and a further swipe stays at 3 |
| Navigation.PanEndOnLobby | App.tsx:284-289 | in the lobby a released pan opens the door iff dx < -W/4 or v < -300; otherwise the door returns to (0, 0) |
| Navigation.DoorDampedToTheRight | App.tsx:273-275 | a live lobby pan sets the door to (dx, 0) for a leftward drag and to (dx/5, 0) for a rightward one, so it moves less than the finger; nothing else changes |
| Navigation.PinchesMoveOneLayer | App.tsx:256-268 | a pinch-in retreats exactly one layer from home or the expanded frame; a pinch-out advances from the lobby to page 0 of the home screen; elsewhere they do nothing |
| Navigation.KeyUnlockFlow | App.tsx:313-337 | tapping the locked KEY frame and unlocking expands the KEY frame, unlocked, with the keypad gone and nothing pending |
| Navigation.UnlockedKeyExpands | App.tsx:313-321 | once unlocked the KEY frame expands on tap |
| Navigation.GalleryCardExpandsNothing | components/Home.tsx:261-296 | the Gallery card's undefined type enters the expanded state with no active frame; a pinch-in still returns home, and closing an AI edit started there goes home, not back to the expanded state |
| Navigation.App.constructor | App.tsx:13-26 | the application starts in the lobby, paged, locked, on page 0, with nothing open |
| Navigation.App.HandleSaveItem | App.tsx:196-198 | the handler's update is exactly `SaveItem` |
| Navigation.App.HandleOpenDoor | App.tsx:200-205 | the handler's updates are exactly `OpenDoor` |
| Navigation.App.HandleReturnToLobby | App.tsx:207-225 | the handler's updates are exactly `ReturnToLobby` |
| Navigation.App.HandleToggleViewMode | App.tsx:227-235 | the handler's updates are exactly `ToggleViewMode` |
| Navigation.App.HandleCloseExpanded | App.tsx:242-246 | the handler's updates are exactly `CloseExpanded` |
| Navigation.App.HandleGesture | App.tsx:249-310 | the callbacks' updates, including the early return on page 0, are exactly `OnGesture` |
| Navigation.App.HandleFrameTap | App.tsx:313-321 | the handler's updates are exactly `FrameTap` |
| Navigation.App.HandleFolderTap | App.tsx:323-327 | the handler's updates are exactly `FolderTap` |
| Navigation.App.HandleUnlock | App.tsx:329-337 | the handler's updates are exactly `Unlock` |
| Navigation.App.HandleKeypadCancel | App.tsx:420-423 | the handler's updates are exactly `CancelKeypad` |
| Navigation.App.HandleItemLongPress | App.tsx:339-342 | the handler's updates are exactly `ItemLongPress` |
| Navigation.App.HandleAIEditClose | App.tsx:405-412 | the handler's updates are exactly `CloseAIEdit` |
| Keypad.Check | components/Keypad.tsx:29-38 | a four-digit PIN equal to 0000 signals unlock and stays; any other four-digit PIN sets the error and clears the PIN; shorter PINs are left alone |
| Keypad.Press | components/Keypad.tsx:17-22 | a key is taken only while the PIN is shorter than four; unlock is signalled iff the extended PIN is 0000; an accepted key that does not complete the PIN clears the error; a wrong fourth key clears the PIN with the error set; after unlock the PIN is 0000 with no error |
| Keypad.DropLast | components/Keypad.tsx:25 | the last character is removed; the empty PIN stays empty |
| Keypad.Delete | components/Keypad.tsx:24-27 | delete drops the last digit and clears the error |
| Keypad.LayoutKeys | components/Keypad.tsx:40 | every slot is a single digit, the empty slot or delete, and every digit has a key |
| Keypad.PressDigitKeepsValid | components/Keypad.tsx:17-22 | a digit press keeps the PIN at most four digits, and four only when it is the passcode |
| Keypad.DeleteKeepsValid | components/Keypad.tsx:24-27 | delete keeps the pad valid |
| Keypad.TapKeepsValid | components/Keypad.tsx:98-114 | a tap on any slot keeps the pad valid; the empty slot does nothing, delete deletes, digits press |
| Keypad.TapAllKeepsValid | components/Keypad.tsx:17-38 | any sequence of taps keeps the PIN within four digits |
| Keypad.PinEntryExamples | components/Keypad.tsx:29-36 | 0 0 0 0 signals unlock; 1 2 3 4 sets the error and leaves an empty PIN |
| Keypad.Keypad.constructor | components/Keypad.tsx:13-14 | the keypad starts with an empty PIN and no error |
| Keypad.Keypad.CheckPin | components/Keypad.tsx:29-38 | the effect's updates are exactly `Check` |
| Keypad.Keypad.HandlePress | components/Keypad.tsx:17-22 | the press and the effect after it are exactly `Press` |
| Keypad.Keypad.HandleDelete | components/Keypad.tsx:24-27 | the delete and the effect after it are exactly `Delete` |
| Keypad.Keypad.HandleTap | components/Keypad.tsx:98-114 | a tap on a slot is exactly `Tap` |
| Router.LowerChar | services/geminiService.ts:6 | upper-case ASCII letters move to lower case; every other character is kept; the result is never upper case |
| Router.Lower | services/geminiService.ts:6 | lower-casing keeps the length and lower-cases each character |
| Router.LowerIdempotent | services/geminiService.ts:6 | lower-casing twice is lower-casing once |
| Router.ContainsIffOccurs | services/geminiService.ts:8 | `includes` is true iff the word occurs at some index |
| Router.MockRoute | services/geminiService.ts:4-32 | every field is present and truthy; the result is a NOTE iff no calendar, finance, key or reminder word occurs; only a NOTE carries a genre; each category has its fixed title, summary and payload (CALENDAR Event / Added to Calendar / date, FINANCE Transaction / Logged expense / amount 0, KEY Secret / Locked in Key / encrypted, REMINDER Task / Reminder set / due); a NOTE is titled Note, summarised Using Offline Mock, and carries the original text and the genre that follows it |
| Router.FirstMatchIsEarliest | services/geminiService.ts:8-22 | an ordered keyword table yields the value of the earliest row mentioned |
| Router.FirstMatchDefault | services/geminiService.ts:8-22 | an ordered keyword table yields the default when no row is mentioned |
| Router.MockRouteTypeFollowsTable | services/geminiService.ts:8-22 | the type is the first of calendar, finance, key, reminder mentioned, NOTE otherwise |
| Router.GenreFollowsTable | services/geminiService.ts:24-29 | the genre is the first of Food, Sport, Ideas, Links mentioned, General otherwise |
| Router.MockRouteCaseInsensitive | services/geminiService.ts:6-31 | texts that lower-case alike get the same type, title, summary and genre, and the same payload unless they are NOTEs |
| Router.FirstGroupWinsExample | services/geminiService.ts:8-14 | "Buy key" is a transaction, not a secret |
| Router.NoteGenreExample | services/geminiService.ts:24-31 | "Food" is a Food NOTE carrying the original text |
| Router.OrDefault | services/geminiService.ts:71-75 | `x \|\| default` passes a truthy value through unchanged, is otherwise the default, and is truthy whenever the default is |
| Router.OrDefaultIdempotent | services/geminiService.ts:71-75 | with a truthy default, applying the default again to the result changes nothing |
| Router.Sanitise | services/geminiService.ts:70-76 | every field is present and truthy; present truthy fields pass through; missing or falsy ones become NOTE, "Untitled", "Processed", "General" and {} |
| Router.SanitiseCompleteRoundTrip | services/geminiService.ts:70-76 | sanitising a complete result gives it back unchanged |
| Router.SanitiseIdempotent | services/geminiService.ts:70-76 | sanitising twice is sanitising once |
| Router.SanitiseKeepsUnknownType | services/geminiService.ts:71 | an unknown type string passes through; a falsy type becomes NOTE |
| Router.Route | services/geminiService.ts:44-83 | the sanitised answer iff an endpoint is set, the response is ok and its body parsed to a non-null value; the offline route otherwise; the result is always complete |
| Router.NoEndpointIgnoresReply | services/geminiService.ts:46-49 | without an endpoint the reply is never looked at and the offline route is used |
| Router.GeminiService.constructor | services/geminiService.ts:37-42 | an unset or empty variable leaves no endpoint |
| Router.GeminiService.RouteInput | services/geminiService.ts:44-83 | the method's early returns compute exactly `Route` |
| GlassFramePress.StartPress | components/GlassFrame.tsx:38-48 | the start is recorded, the press becomes valid, a timer is held, and a still pending held timer becomes an orphan |
| GlassFramePress.HandleMove | components/GlassFrame.tsx:50-58 | the press stays valid iff it was valid and the finger stays within 10 px; the held timer is cancelled iff the move invalidates the press |
| GlassFramePress.Callback | components/GlassFrame.tsx:42-47 | the long press is reported iff the callback exists and the press is valid, and the press is then invalid |
| GlassFramePress.TimerFires | components/GlassFrame.tsx:42-47 | a pending timer reports a long press iff the callback exists and the press is valid; a reported long press invalidates, and otherwise validity is kept; the fired timer stops being pending (the held one or one orphan); a timer that is not pending changes nothing |
| GlassFramePress.EndPress | components/GlassFrame.tsx:60-65 | the held timer is cancelled; the release is a click iff the press is valid and the click callback exists |
| GlassFramePress.InvalidPressIsSilent | components/GlassFrame.tsx:50-65 | an invalid press reports nothing until the next touchstart |
| GlassFramePress.LongPressAtMostOnce | components/GlassFrame.tsx:42-46 | between two touchstarts at most one long press is reported |
| GlassFramePress.ReleaseAfterLongPressDoesNotClick | components/GlassFrame.tsx:43-62 | no click follows a long press before the next touchstart |
| GlassFramePress.DraggedPressIsSilent | components/GlassFrame.tsx:50-64 | a press dragged past 10 px reports neither a click nor a long press |
| GlassFramePress.HeldPressWithoutCallbackClicks | components/GlassFrame.tsx:43 | without a long-press callback a held press still clicks on release |
| GlassFramePress.OrphanTimerFiresAfterRelease | components/GlassFrame.tsx:42-61 | after two touchstarts, the release cancels only the newer timer, and the older one reports a long press after the click |
| GlassFramePress.GlassFrame.constructor | components/GlassFrame.tsx:34-36 | the refs start at the origin, with no timer and a valid press |
| GlassFramePress.GlassFrame.HandleStartPress | components/GlassFrame.tsx:38-48 | the handler's writes are exactly `StartPress` |
| GlassFramePress.GlassFrame.HandleTouchMove | components/GlassFrame.tsx:50-58 | the handler's writes are exactly `HandleMove` |
| GlassFramePress.GlassFrame.HandleTimer | components/GlassFrame.tsx:42-47 | the timer callback's writes and report are exactly `TimerFires` |
| GlassFramePress.GlassFrame.HandleEndPress | components/GlassFrame.tsx:60-65 | the handler's writes and report are exactly `EndPress` |
| LongPressablePress.TouchStart | components/LongPressable.tsx:23-36 | when disabled, nothing changes; otherwise the start is recorded, the long-press flag cleared, a timer held, and a still pending held timer becomes an orphan |
| LongPressablePress.TouchMove | components/LongPressable.tsx:38-49 | when disabled or with no held timer, nothing changes; otherwise the handle is dropped and its timer cancelled iff the finger strays past 10 px; the long-press flag never changes |
| LongPressablePress.TimerFires | components/LongPressable.tsx:31-35 | a pending timer sets the long-press flag, reports the long press and stops being pending (the held one or one orphan); the handle is kept; a timer that is not pending changes nothing |
| LongPressablePress.TouchEnd | components/LongPressable.tsx:51-63 | when disabled, nothing happens; otherwise the held timer is cancelled and dropped, and the release is a click iff the long press did not fire and the callback exists, however far the finger moved |
| LongPressablePress.StepKeepsValid | components/LongPressable.tsx:31-58 | a pending held timer always has its handle held |
| LongPressablePress.RunKeepsValid | components/LongPressable.tsx:31-58 | that stays true over any event sequence |
| LongPressablePress.DisabledIsInert | components/LongPressable.tsx:24-52 | a disabled row with no pending timer changes nothing and reports nothing, whatever it receives |
| LongPressablePress.NoClickAfterLongPress | components/LongPressable.tsx:28-62 | once the long press fired, nothing but long presses is reported until the next touchstart |
| LongPressablePress.DraggedRowStillClicks | components/LongPressable.tsx:45-62 | a row dragged past 10 px and released is still a click |
| LongPressablePress.OrphanTimerFiresAfterRelease | components/LongPressable.tsx:31-58 | after two touchstarts the older timer survives the release and reports a long press after the click |
| LongPressablePress.LongPressable.constructor | components/LongPressable.tsx:19-21 | no timer, no long press, start at the origin |
| LongPressablePress.LongPressable.HandleTouchStart | components/LongPressable.tsx:23-36 | the handler's writes are exactly `TouchStart` |
| LongPressablePress.LongPressable.HandleTouchMove | components/LongPressable.tsx:38-49 | the handler's writes are exactly `TouchMove` |
| LongPressablePress.LongPressable.HandleTimer | components/LongPressable.tsx:31-35 | the timer callback's writes and report are exactly `TimerFires` |
| LongPressablePress.LongPressable.HandleTouchEnd | components/LongPressable.tsx:51-63 | the handler's writes and report are exactly `TouchEnd` |
| Shell.ApplyGesturesIsRun | App.tsx:249-310 | handing reported gestures to the callbacks is running the navigation machine on them |
| Shell.DeliverAllPreservesValid | App.tsx:249-311 | touch input keeps the navigation invariants |
| Shell.DisabledGesturesChangeNothing | App.tsx:311 | while the AI editor is open or the keypad shows, no touch changes the recogniser or the application |
| Shell.ThreeFingerTapSwitchesView | App.tsx:269-271 | three fingers tapped for 100 ms on the paged home switch to the single-page home |
| Shell.Shell.constructor | App.tsx:249 | the recogniser gets both pinch callbacks and starts idle beside the initial application state |
| Shell.Shell.OnTouch | App.tsx:249-311 | a touch is ignored while gestures are disabled; otherwise it goes to the recogniser and each reported gesture to its callback, in order |

## Left out

- Rendering, animation and styling: the markup of every component, the home, expanded-frame, settings, glass-card and AI-editor components, and the theme toggle (`toggleTheme`). They are presentation only.
- The lobby's submit flow is not part of this model. It is asynchronous glue around the router, with random identifiers, timers and focus handling.
- The Express server and its language-model call are not part of this model. They are network and foreign SDK code. The server has a sanitiser of the same shape as the client's, but its defaults for title and summary are "New Item" and "Saved" (server/index.js:85-91); only the client's sanitiser, with "Untitled" and "Processed", is modelled.
- `fetch`, `response.json()` and the 600 ms delay before the offline answer. The network exchange is the parameter `Router.Reply`, and only the choice between the backend answer and the fallback is modelled.
- `Date.now`, `Math.hypot`, `window.innerWidth` and `window.innerHeight` are parameters: clock readings, squared spacings and the screen width. Numbers are exact reals, not IEEE doubles.
- Navigation.ReturnToLobby: the "drop" variant briefly places the door at (0, -innerHeight) and moves it back to (0, 0) two animation frames later. Only the final (0, 0) is modelled.
- Navigation.FolderTap and Navigation.ItemLongPress: the home screen and the expanded frame declare no props through which these handlers are called (components/Home.tsx:7-16, components/ExpandedFrame.tsx:7-12). The model still lets the events `FolderTapped` and `ItemLongPressed` happen at any time, so its invariants over-approximate the reachable states. Home's `onFrameLongPress` prop is never passed (App.tsx:360-370) and is not modelled.
- Navigation.OnGesture: the callbacks read the state of the last render. The model applies each gesture to the state left by the previous one. These agree because a touch event reports at most one gesture.
- `preventDefault`, native scrolling and zoom, `stopPropagation`, and the adding and removing of window listeners are browser behaviour. Re-subscription on every render keeps the same record, so the model keeps one recogniser.
- Keypad.Check: the 200 ms delay before unlock and the 400 ms delay before a wrong PIN is cleared are modelled as an immediate check. A delete pressed during those 400 ms is therefore not modelled; in the source it shortens the wrong PIN before the timer clears it. The effect's re-run when the `onUnlock` identity changes is also left out.
- Router.Lower: only ASCII letters are lower-cased; Unicode case mapping is left out.
- Haptic feedback (`navigator.vibrate`) in the list row.
- The frame card's separate icon tap handler, and props that change in the middle of a press.
- The demo content of the initial item list is left out; the initial items are a parameter.
- The `GestureState` interface in `types.ts` is not modelled; no code uses it.
- The timer delays (450 ms on the frame card, 500 ms on the list row) are not modelled. A timer firing is an input event, so any interleaving of timers and touches can be expressed.
