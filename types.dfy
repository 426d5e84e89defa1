/** The value types the application shares between its screens, its gesture layer and its
    routing service: the screen enums, the item record, and a JSON value for data whose shape
    the program does not check. */
module DoornaTypes {

  datatype Option<+T> = None | Some(value: T)

  /** The screens of the application. S5 and S6 are declared but never entered. */
  datatype AppState =
    | S0_LobbyDoor
    | S1_HomePaged
    | S2_HomeSinglePage
    | S3_FrameExpanded
    | S4_AIEdit
    | S5_KeyLocked
    | S6_KeyUnlocked

  datatype ViewMode = Paged | Single

  datatype KeyAuth = Locked | Unlocked

  datatype FrameType = Today | Calendar | Reminder | Note | Finance | Key | Settings

  /** The string each frame type stands for at run time. */
  function FrameTypeName(t: FrameType): (name: string)
    ensures name != ""
  {
    match t
    case Today => "TODAY"
    case Calendar => "CALENDAR"
    case Reminder => "REMINDER"
    case Note => "NOTE"
    case Finance => "FINANCE"
    case Key => "KEY"
    case Settings => "SETTINGS"
  }

  /** Distinct frame types are distinct strings, so a frame type can be read back from its name. */
  lemma FrameTypeNameInjective(a: FrameType, b: FrameType)
    ensures FrameTypeName(a) == FrameTypeName(b) ==> a == b
  {
    if FrameTypeName(a) == FrameTypeName(b) {
      var n := FrameTypeName(a);
      assert n[0] == FrameTypeName(b)[0];
      if |n| > 1 {
        assert n[1] == FrameTypeName(b)[1];
      }
    }
  }

  /** A parsed JSON value. JSON has no NaN, so a number is falsy only when it is zero. */
  datatype Json =
    | JNull
    | JBool(b: bool)
    | JNum(n: real)
    | JStr(s: string)
    | JArr(elems: seq<Json>)
    | JObj(fields: map<string, Json>)

  /** JavaScript truthiness of a JSON value. */
  predicate Truthy(v: Json) {
    match v
    case JNull => false
    case JBool(b) => b
    case JNum(n) => n != 0.0
    case JStr(s) => s != ""
    case JArr(_) => true
    case JObj(_) => true
  }

  /** Property access `v.key`: `None` is `undefined`. Only an object has the keys this program
      reads; strings, arrays, numbers and booleans give `undefined` for them. */
  function Field(v: Json, key: string): Option<Json> {
    if v.JObj? && key in v.fields then Some(v.fields[key]) else None
  }

  datatype ItemStatus = Active | Draft | Done

  /** One stored item; `payload` is whatever the router produced. */
  datatype DoornaItem = DoornaItem(
    id: string,
    createdAt: int,
    source: string,
    rawText: string,
    frameType: FrameType,
    title: string,
    payload: Json,
    status: ItemStatus,
    tags: Option<seq<string>>,
    genre: Option<string>)
}
