/** The application's navigation state machine: the screen, the view mode, the page, the
    expanded frame, the key lock and its keypad, the stored items and the door and drag offsets,
    changed by the screens' handlers and by the gestures the recogniser reports. */
module Navigation {
  import opened DoornaTypes
  import G = Gestures

  /** A pan-end further than this fraction of the screen width turns a page or opens the door. */
  const SwipeFraction: real := 0.25
  const DoorOpenSpeed: real := 300.0
  const PageTurnSpeed: real := 500.0
  const LastPageIndex: int := 3
  /** A rightward drag of the closed door moves it by this fraction of the drag. */
  const DoorDamping: real := 0.2

  /** Every piece of application state the handlers update. `doorX`/`doorY` is the door's
      position and `dragX` the live offset of the paged home screen. */
  datatype Model = Model(
    currentState: AppState,
    viewMode: ViewMode,
    keyAuth: KeyAuth,
    pageIndex: int,
    activeFrame: Option<FrameType>,
    activeGenre: Option<string>,
    editingItem: Option<DoornaItem>,
    showKeypad: bool,
    pendingUnlockType: Option<FrameType>,
    items: seq<DoornaItem>,
    dragX: real,
    doorX: real,
    doorY: real)

  function Initial(items: seq<DoornaItem>): Model {
    Model(S0_LobbyDoor, Paged, Locked, 0, None, None, None, false, None, items, 0.0, 0.0, 0.0)
  }

  /** The home screen that goes with a view mode. */
  function HomeState(v: ViewMode): (st: AppState)
    ensures st == S1_HomePaged <==> v == Paged
    ensures st == S2_HomeSinglePage <==> v == Single
  {
    match v
    case Paged => S1_HomePaged
    case Single => S2_HomeSinglePage
  }

  predicate IsHome(st: AppState) {
    st == S1_HomePaged || st == S2_HomeSinglePage
  }

  /** What every reachable state satisfies: the page index stays within 0..3 (one past the
      last of the three pages), a home screen matches the view mode, and a pending frame
      exists only for the locked KEY frame while the keypad shows. */
  predicate Valid(m: Model) {
    0 <= m.pageIndex <= LastPageIndex &&
    (m.currentState == S1_HomePaged ==> m.viewMode == Paged) &&
    (m.currentState == S2_HomeSinglePage ==> m.viewMode == Single) &&
    (m.showKeypad ==> m.keyAuth == Locked) &&
    (m.pendingUnlockType.Some? ==> m.showKeypad && m.pendingUnlockType.value == Key)
  }

  /** The recogniser listens only outside the AI editor and while the keypad is hidden. */
  predicate GesturesEnabled(m: Model) {
    m.currentState != S4_AIEdit && !m.showKeypad
  }

  /** handleOpenDoor: slide the door off to the left and show page 0 of the home screen. */
  function OpenDoor(m: Model, screenWidth: real): (r: Model)
    ensures r.currentState == HomeState(m.viewMode) && r.pageIndex == 0 && r.dragX == 0.0
    ensures r.doorX == -screenWidth && r.doorY == 0.0
    ensures r.(currentState := m.currentState, pageIndex := m.pageIndex, dragX := m.dragX,
               doorX := m.doorX, doorY := m.doorY) == m
  {
    m.(pageIndex := 0, dragX := 0.0, doorX := -screenWidth, doorY := 0.0,
       currentState := HomeState(m.viewMode))
  }

  /** handleReturnToLobby: close any frame, rewind to page 0 and bring the door back. Both the
      slide and the drop variant leave the door at (0, 0). */
  function ReturnToLobby(m: Model): (r: Model)
    ensures r.currentState == S0_LobbyDoor && r.activeFrame == None && r.pageIndex == 0
    ensures r.dragX == 0.0 && r.doorX == 0.0 && r.doorY == 0.0
    ensures r.(currentState := m.currentState, activeFrame := m.activeFrame, pageIndex := m.pageIndex,
               dragX := m.dragX, doorX := m.doorX, doorY := m.doorY) == m
  {
    m.(activeFrame := None, pageIndex := 0, dragX := 0.0, doorX := 0.0, doorY := 0.0,
       currentState := S0_LobbyDoor)
  }

  /** toggleViewMode: always flips the view mode; on a home screen it also moves to the home
      screen of the new mode; elsewhere the screen stays. */
  function ToggleViewMode(m: Model): (r: Model)
    ensures r.viewMode != m.viewMode
    ensures IsHome(m.currentState) ==> r.currentState == HomeState(r.viewMode)
    ensures !IsHome(m.currentState) ==> r.currentState == m.currentState
    ensures r.(viewMode := m.viewMode, currentState := m.currentState) == m
  {
    var next := if m.viewMode == Paged then Single else Paged;
    m.(viewMode := next, currentState := if IsHome(m.currentState) then HomeState(next) else m.currentState)
  }

  /** closeExpanded: leave the expanded frame for the home screen of the current mode. */
  function CloseExpanded(m: Model): (r: Model)
    ensures r.currentState == HomeState(m.viewMode) && r.activeFrame == None && r.activeGenre == None
    ensures r.(currentState := m.currentState, activeFrame := m.activeFrame, activeGenre := m.activeGenre) == m
  {
    m.(activeFrame := None, activeGenre := None, currentState := HomeState(m.viewMode))
  }

  /** The page step a released pan asks for: +1 forward (a leftward swipe), -1 back, 0 none. */
  function PageChange(dx: real, velocity: G.Speed, screenWidth: real): (change: int)
    ensures change == 1 <==> dx < -(screenWidth * SwipeFraction) || velocity.Below(-PageTurnSpeed)
    ensures change == -1 <==> !(dx < -(screenWidth * SwipeFraction) || velocity.Below(-PageTurnSpeed)) &&
                              (dx > screenWidth * SwipeFraction || velocity.Above(PageTurnSpeed))
    ensures -1 <= change <= 1
  {
    var threshold := screenWidth * SwipeFraction;
    if dx < -threshold || velocity.Below(-PageTurnSpeed) then 1
    else if dx > threshold || velocity.Above(PageTurnSpeed) then -1
    else 0
  }

  /** The gesture callbacks handed to the recogniser. */
  function OnGesture(m: Model, g: G.Gesture, screenWidth: real): (r: Model)
    ensures g.TwoFingerPullDown? ==> r == (if IsHome(m.currentState) then ReturnToLobby(m) else m)
    ensures g.PinchIn? ==> r == (if m.currentState == S3_FrameExpanded then CloseExpanded(m)
                                 else if IsHome(m.currentState) then ReturnToLobby(m) else m)
    ensures g.PinchOut? ==> r == (if m.currentState == S0_LobbyDoor then OpenDoor(m, screenWidth) else m)
    ensures g.ThreeFingerTap? ==> r == ToggleViewMode(m)
    ensures g.Pan? && m.currentState == S1_HomePaged ==> r == m.(dragX := g.dx)
    ensures g.Pan? && m.currentState != S0_LobbyDoor && m.currentState != S1_HomePaged ==> r == m
    ensures g.PanEnd? && m.currentState != S0_LobbyDoor && m.currentState != S1_HomePaged ==> r == m
  {
    match g
    case TwoFingerPullDown =>
      if IsHome(m.currentState) then ReturnToLobby(m) else m
    case PinchIn =>
      if m.currentState == S3_FrameExpanded then CloseExpanded(m)
      else if IsHome(m.currentState) then ReturnToLobby(m)
      else m
    case PinchOut =>
      if m.currentState == S0_LobbyDoor then OpenDoor(m, screenWidth) else m
    case ThreeFingerTap =>
      ToggleViewMode(m)
    case Pan(dx, _) =>
      if m.currentState == S0_LobbyDoor then
        m.(doorX := if dx > 0.0 then dx * DoorDamping else dx, doorY := 0.0)
      else if m.currentState == S1_HomePaged then m.(dragX := dx)
      else m
    case PanEnd(dx, velocity) =>
      if m.currentState == S0_LobbyDoor then
        if dx < -(screenWidth * SwipeFraction) || velocity.Below(-DoorOpenSpeed) then OpenDoor(m, screenWidth)
        else m.(doorX := 0.0, doorY := 0.0)
      else if m.currentState == S1_HomePaged then
        var change := PageChange(dx, velocity, screenWidth);
        if change == 1 then
          m.(pageIndex := if m.pageIndex < LastPageIndex then m.pageIndex + 1 else m.pageIndex, dragX := 0.0)
        else if change == -1 then
          if m.pageIndex > 0 then m.(pageIndex := m.pageIndex - 1, dragX := 0.0) else ReturnToLobby(m)
        else m.(dragX := 0.0)
      else m
  }

  /** handleFrameTap: the locked KEY frame asks for the PIN and remembers itself; any other
      frame expands at once. The tapped card's type is `None` for the home grid's Gallery card,
      whose `FrameType.GALLERY` is not a member of the enum and so is `undefined`. */
  function FrameTap(m: Model, t: Option<FrameType>): (r: Model)
    ensures t == Some(Key) && m.keyAuth == Locked ==>
              r == m.(pendingUnlockType := Some(Key), showKeypad := true)
    ensures !(t == Some(Key) && m.keyAuth == Locked) ==>
              r == m.(activeFrame := t, currentState := S3_FrameExpanded)
  {
    if t == Some(Key) && m.keyAuth == Locked then m.(pendingUnlockType := t, showKeypad := true)
    else m.(activeFrame := t, currentState := S3_FrameExpanded)
  }

  /** handleFolderTap: open the NOTE frame on one genre. */
  function FolderTap(m: Model, genre: string): (r: Model)
    ensures r == m.(activeFrame := Some(Note), activeGenre := Some(genre), currentState := S3_FrameExpanded)
  {
    m.(activeFrame := Some(Note), activeGenre := Some(genre), currentState := S3_FrameExpanded)
  }

  /** handleUnlock: unlock for the rest of the run, hide the keypad, and expand the frame that
      asked for the PIN, if any. */
  function Unlock(m: Model): (r: Model)
    ensures r.keyAuth == Unlocked && !r.showKeypad && r.pendingUnlockType == None
    ensures m.pendingUnlockType.Some? ==>
              r == m.(keyAuth := Unlocked, showKeypad := false, activeFrame := m.pendingUnlockType,
                      currentState := S3_FrameExpanded, pendingUnlockType := None)
    ensures m.pendingUnlockType == None ==> r == m.(keyAuth := Unlocked, showKeypad := false)
  {
    var unlocked := m.(keyAuth := Unlocked, showKeypad := false);
    match m.pendingUnlockType
    case Some(t) => unlocked.(activeFrame := Some(t), currentState := S3_FrameExpanded, pendingUnlockType := None)
    case None => unlocked
  }

  /** The keypad's cancel button. */
  function CancelKeypad(m: Model): (r: Model)
    ensures !r.showKeypad && r.pendingUnlockType == None
    ensures r.(showKeypad := m.showKeypad, pendingUnlockType := m.pendingUnlockType) == m
  {
    m.(showKeypad := false, pendingUnlockType := None)
  }

  /** handleItemLongPress: open the AI editor on an item. */
  function ItemLongPress(m: Model, item: DoornaItem): (r: Model)
    ensures r == m.(editingItem := Some(item), currentState := S4_AIEdit)
  {
    m.(editingItem := Some(item), currentState := S4_AIEdit)
  }

  /** The AI editor's close button: back to the expanded frame if one is open, else home. */
  function CloseAIEdit(m: Model): (r: Model)
    ensures r.editingItem == None
    ensures r.currentState == (if m.activeFrame.Some? then S3_FrameExpanded else HomeState(m.viewMode))
    ensures r.(editingItem := m.editingItem, currentState := m.currentState) == m
  {
    m.(editingItem := None,
       currentState := if m.activeFrame.Some? then S3_FrameExpanded else HomeState(m.viewMode))
  }

  /** saveItem: append; the items already stored are kept in order. */
  function SaveItem(m: Model, item: DoornaItem): (r: Model)
    ensures |r.items| == |m.items| + 1 && r.items[..|m.items|] == m.items && r.items[|m.items|] == item
    ensures r.(items := m.items) == m
  {
    m.(items := m.items + [item])
  }

  /** Everything that can happen to the application. */
  datatype UiEvent =
    | OpenDoorTap(screenWidth: real)
    | GestureReported(g: G.Gesture, screenWidth: real)
    | FrameTapped(t: Option<FrameType>)
    | FolderTapped(genre: string)
    | PinAccepted
    | KeypadCancelled
    | ItemLongPressed(item: DoornaItem)
    | AIEditClosed
    | ExpandedClosed
    | ItemSaved(item: DoornaItem)

  function Step(m: Model, e: UiEvent): Model {
    match e
    case OpenDoorTap(w) => OpenDoor(m, w)
    case GestureReported(g, w) => OnGesture(m, g, w)
    case FrameTapped(t) => FrameTap(m, t)
    case FolderTapped(genre) => FolderTap(m, genre)
    case PinAccepted => Unlock(m)
    case KeypadCancelled => CancelKeypad(m)
    case ItemLongPressed(item) => ItemLongPress(m, item)
    case AIEditClosed => CloseAIEdit(m)
    case ExpandedClosed => CloseExpanded(m)
    case ItemSaved(item) => SaveItem(m, item)
  }

  function Run(m: Model, events: seq<UiEvent>): Model
    decreases |events|
  {
    if events == [] then m else Run(Step(m, events[0]), events[1..])
  }

  /** Every gesture callback keeps the state valid. */
  lemma OnGesturePreservesValid(m: Model, g: G.Gesture, screenWidth: real)
    requires Valid(m)
    ensures Valid(OnGesture(m, g, screenWidth))
  {
  }

  /** Every handler keeps the state valid. */
  lemma StepPreservesValid(m: Model, e: UiEvent)
    requires Valid(m)
    ensures Valid(Step(m, e))
  {
    match e
    case GestureReported(g, w) => OnGesturePreservesValid(m, g, w);
    case _ =>
  }

  /** From the initial state, any sequence of handlers keeps the page index within 0..3, the
      home screen in step with the view mode, and the keypad state coherent. */
  lemma {:induction false} RunPreservesValid(m: Model, events: seq<UiEvent>)
    requires Valid(m)
    ensures Valid(Run(m, events))
    decreases |events|
  {
    if events != [] {
      StepPreservesValid(m, events[0]);
      RunPreservesValid(Step(m, events[0]), events[1..]);
    }
  }

  /** Toggling the view mode twice restores the state. */
  lemma ToggleTwiceRestores(m: Model)
    requires Valid(m)
    ensures ToggleViewMode(ToggleViewMode(m)) == m
  {
  }

  /** A released pan on the paged home screen moves at most one page, never past page 3,
      and a backward swipe on page 0 goes back to the lobby with page 0, no drag and no frame. */
  lemma PanEndPaging(m: Model, dx: real, velocity: G.Speed, screenWidth: real)
    requires m.currentState == S1_HomePaged
    ensures var r := OnGesture(m, G.PanEnd(dx, velocity), screenWidth);
            var change := PageChange(dx, velocity, screenWidth);
            r.dragX == 0.0 &&
            (change == 1 ==>
               r == m.(pageIndex := if m.pageIndex < LastPageIndex then m.pageIndex + 1 else m.pageIndex, dragX := 0.0)) &&
            (change == -1 && m.pageIndex > 0 ==> r == m.(pageIndex := m.pageIndex - 1, dragX := 0.0)) &&
            (change == -1 && m.pageIndex <= 0 ==> r == ReturnToLobby(m)) &&
            (change == 0 ==> r == m.(dragX := 0.0))
  {
  }

  /** The page index is clamped at 3, one past the last of the three pages: a fast leftward
      swipe on the third page (index 2) moves to index 3, and another swipe stays there. */
  lemma SwipePastLastPage(m: Model, screenWidth: real)
    requires m.currentState == S1_HomePaged && m.pageIndex == 2
    ensures var r := OnGesture(m, G.PanEnd(0.0, G.Finite(-600.0)), screenWidth);
            r.pageIndex == 3 && OnGesture(r, G.PanEnd(0.0, G.Finite(-600.0)), screenWidth).pageIndex == 3
  {
  }

  /** On the lobby, a released pan opens the door exactly when it went left by more than a
      quarter of the screen or faster than 300 px/s; otherwise the door springs back to (0, 0). */
  lemma PanEndOnLobby(m: Model, dx: real, velocity: G.Speed, screenWidth: real)
    requires m.currentState == S0_LobbyDoor
    ensures var r := OnGesture(m, G.PanEnd(dx, velocity), screenWidth);
            (r.currentState != S0_LobbyDoor <==> dx < -(screenWidth * SwipeFraction) || velocity.Below(-DoorOpenSpeed)) &&
            (r.currentState == S0_LobbyDoor ==> r == m.(doorX := 0.0, doorY := 0.0)) &&
            (r.currentState != S0_LobbyDoor ==> r == OpenDoor(m, screenWidth))
  {
  }

  /** A live pan on the lobby moves the door with the finger to the left and at one fifth of
      the distance to the right, so the closed door resists opening the wrong way. */
  lemma DoorDampedToTheRight(m: Model, dx: real, dy: real, screenWidth: real)
    requires m.currentState == S0_LobbyDoor
    ensures OnGesture(m, G.Pan(dx, dy), screenWidth) ==
              m.(doorX := if dx > 0.0 then dx / 5.0 else dx, doorY := 0.0)
    ensures var r := OnGesture(m, G.Pan(dx, dy), screenWidth);
            (dx <= 0.0 ==> r.doorX == dx) && (dx > 0.0 ==> 0.0 < r.doorX < dx)
  {
  }

  /** The depth of a screen: lobby 0, home 1, expanded frame 2. */
  function Layer(st: AppState): int {
    match st
    case S0_LobbyDoor => 0
    case S1_HomePaged => 1
    case S2_HomeSinglePage => 1
    case S3_FrameExpanded => 2
    case _ => -1
  }

  /** A pinch-in retreats exactly one layer from the home screens and the expanded frame; a
      pinch-out advances from the lobby to the home screen of the current mode on page 0; in
      every other screen neither does anything. */
  lemma {:induction false} PinchesMoveOneLayer(m: Model, screenWidth: real)
    requires Valid(m)
    ensures var r := OnGesture(m, G.PinchIn, screenWidth);
            (Layer(m.currentState) >= 1 ==> Layer(r.currentState) == Layer(m.currentState) - 1 && Valid(r)) &&
            (Layer(m.currentState) < 1 ==> r == m)
    ensures var r := OnGesture(m, G.PinchOut, screenWidth);
            (m.currentState == S0_LobbyDoor ==>
               Layer(r.currentState) == 1 && r.pageIndex == 0 && r.currentState == HomeState(m.viewMode)) &&
            (m.currentState != S0_LobbyDoor ==> r == m)
  {
  }

  /** Tapping the locked KEY frame and then entering the right PIN expands the KEY frame,
      unlocked, with the keypad gone and nothing pending. */
  lemma KeyUnlockFlow(m: Model)
    requires Valid(m) && m.keyAuth == Locked
    ensures var r := Unlock(FrameTap(m, Some(Key)));
            r.currentState == S3_FrameExpanded && r.activeFrame == Some(Key) && r.keyAuth == Unlocked &&
            !r.showKeypad && r.pendingUnlockType == None
    ensures FrameTap(m, Some(Key)).currentState == m.currentState && FrameTap(m, Some(Key)).showKeypad
  {
  }

  /** Once unlocked, the KEY frame expands directly on tap. */
  lemma UnlockedKeyExpands(m: Model)
    requires m.keyAuth == Unlocked
    ensures FrameTap(m, Some(Key)) == m.(activeFrame := Some(Key), currentState := S3_FrameExpanded)
  {
  }

  /** The Gallery card's undefined type enters the expanded state with no frame, so no expanded
      frame is shown. A pinch-in still leaves it for the home screen, and an AI edit begun there
      returns home on close rather than to the expanded state. */
  lemma GalleryCardExpandsNothing(m: Model, item: DoornaItem, screenWidth: real)
    ensures var r := FrameTap(m, None);
            r == m.(activeFrame := None, currentState := S3_FrameExpanded) &&
            OnGesture(r, G.PinchIn, screenWidth).currentState == HomeState(m.viewMode) &&
            CloseAIEdit(ItemLongPress(r, item)).currentState == HomeState(m.viewMode)
  {
  }

  /** The application component's state: one variable per piece. */
  class App {
    var currentState: AppState
    var viewMode: ViewMode
    var keyAuth: KeyAuth
    var pageIndex: int
    var activeFrame: Option<FrameType>
    var activeGenre: Option<string>
    var editingItem: Option<DoornaItem>
    var showKeypad: bool
    var pendingUnlockType: Option<FrameType>
    var items: seq<DoornaItem>
    var dragX: real
    var doorX: real
    var doorY: real

    function Snapshot(): Model
      reads this
    {
      Model(currentState, viewMode, keyAuth, pageIndex, activeFrame, activeGenre, editingItem,
            showKeypad, pendingUnlockType, items, dragX, doorX, doorY)
    }

    constructor (initialItems: seq<DoornaItem>)
      ensures Snapshot() == Initial(initialItems)
      ensures Valid(Snapshot())
    {
      currentState, viewMode, keyAuth, pageIndex := S0_LobbyDoor, Paged, Locked, 0;
      activeFrame, activeGenre, editingItem := None, None, None;
      showKeypad, pendingUnlockType, items := false, None, initialItems;
      dragX, doorX, doorY := 0.0, 0.0, 0.0;
    }

    method HandleSaveItem(item: DoornaItem)
      modifies this
      ensures Snapshot() == SaveItem(old(Snapshot()), item)
    {
      items := items + [item];
    }

    method HandleOpenDoor(screenWidth: real)
      modifies this
      ensures Snapshot() == OpenDoor(old(Snapshot()), screenWidth)
    {
      pageIndex := 0;
      dragX := 0.0;
      doorX, doorY := -screenWidth, 0.0;
      currentState := if viewMode == Single then S2_HomeSinglePage else S1_HomePaged;
    }

    method HandleReturnToLobby()
      modifies this
      ensures Snapshot() == ReturnToLobby(old(Snapshot()))
    {
      activeFrame := None;
      pageIndex := 0;
      dragX := 0.0;
      doorX, doorY := 0.0, 0.0;
      currentState := S0_LobbyDoor;
    }

    method HandleToggleViewMode()
      modifies this
      ensures Snapshot() == ToggleViewMode(old(Snapshot()))
    {
      var next := if viewMode == Paged then Single else Paged;
      if currentState == S1_HomePaged || currentState == S2_HomeSinglePage {
        currentState := if next == Single then S2_HomeSinglePage else S1_HomePaged;
      }
      viewMode := next;
    }

    method HandleCloseExpanded()
      modifies this
      ensures Snapshot() == CloseExpanded(old(Snapshot()))
    {
      activeFrame := None;
      activeGenre := None;
      currentState := if viewMode == Single then S2_HomeSinglePage else S1_HomePaged;
    }

    /** The callbacks given to the recogniser, one per reported gesture. */
    method HandleGesture(g: G.Gesture, screenWidth: real)
      modifies this
      ensures Snapshot() == OnGesture(old(Snapshot()), g, screenWidth)
    {
      match g {
        case TwoFingerPullDown =>
          if currentState == S1_HomePaged || currentState == S2_HomeSinglePage {
            HandleReturnToLobby();
          }
        case PinchIn =>
          if currentState == S3_FrameExpanded {
            HandleCloseExpanded();
          } else if currentState == S1_HomePaged || currentState == S2_HomeSinglePage {
            HandleReturnToLobby();
          }
        case PinchOut =>
          if currentState == S0_LobbyDoor {
            HandleOpenDoor(screenWidth);
          }
        case ThreeFingerTap =>
          HandleToggleViewMode();
        case Pan(dx, _) =>
          if currentState == S0_LobbyDoor {
            var dampedDx := if dx > 0.0 then dx * DoorDamping else dx;
            doorX, doorY := dampedDx, 0.0;
          } else if currentState == S1_HomePaged {
            dragX := dx;
          }
        case PanEnd(dx, velocity) =>
          var threshold := screenWidth * SwipeFraction;
          if currentState == S0_LobbyDoor {
            if dx < -threshold || velocity.Below(-DoorOpenSpeed) {
              HandleOpenDoor(screenWidth);
            } else {
              doorX, doorY := 0.0, 0.0;
            }
          } else if currentState == S1_HomePaged {
            var change := 0;
            if dx < -threshold || velocity.Below(-PageTurnSpeed) {
              change := 1;
            } else if dx > threshold || velocity.Above(PageTurnSpeed) {
              change := -1;
            }
            if change == 1 {
              if pageIndex < LastPageIndex {
                pageIndex := pageIndex + 1;
              }
            } else if change == -1 {
              if pageIndex > 0 {
                pageIndex := pageIndex - 1;
              } else {
                HandleReturnToLobby();
                return;
              }
            }
            dragX := 0.0;
          }
      }
    }

    method HandleFrameTap(t: Option<FrameType>)
      modifies this
      ensures Snapshot() == FrameTap(old(Snapshot()), t)
    {
      if t == Some(Key) && keyAuth == Locked {
        pendingUnlockType := t;
        showKeypad := true;
      } else {
        activeFrame := t;
        currentState := S3_FrameExpanded;
      }
    }

    method HandleFolderTap(genre: string)
      modifies this
      ensures Snapshot() == FolderTap(old(Snapshot()), genre)
    {
      activeFrame := Some(Note);
      activeGenre := Some(genre);
      currentState := S3_FrameExpanded;
    }

    method HandleUnlock()
      modifies this
      ensures Snapshot() == Unlock(old(Snapshot()))
    {
      keyAuth := Unlocked;
      showKeypad := false;
      if pendingUnlockType.Some? {
        activeFrame := pendingUnlockType;
        currentState := S3_FrameExpanded;
        pendingUnlockType := None;
      }
    }

    method HandleKeypadCancel()
      modifies this
      ensures Snapshot() == CancelKeypad(old(Snapshot()))
    {
      showKeypad := false;
      pendingUnlockType := None;
    }

    method HandleItemLongPress(item: DoornaItem)
      modifies this
      ensures Snapshot() == ItemLongPress(old(Snapshot()), item)
    {
      editingItem := Some(item);
      currentState := S4_AIEdit;
    }

    method HandleAIEditClose()
      modifies this
      ensures Snapshot() == CloseAIEdit(old(Snapshot()))
    {
      editingItem := None;
      if activeFrame.Some? {
        currentState := S3_FrameExpanded;
      } else {
        currentState := if viewMode == Single then S2_HomeSinglePage else S1_HomePaged;
      }
    }
  }
}
