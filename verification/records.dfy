/** The typed records both JSON wrappers build from a capture document. */
module Records {
  import opened Wrappers

  /** A captured sample; `time` is absent (None) for sampled points. */
  datatype Point = Point(time: Option<int>, component: int, x: real, y: real)

  datatype Configuration = Configuration(
    guideLines: bool,
    items: seq<string>,
    repetitions: int,
    repetitionsLabel: string,
    title: string)

  datatype DeviceData = DeviceData(
    deviceFingerPrint: string,
    deviceModel: string,
    heigthPixels: int,
    widthPixels: int,
    xdpi: real,
    ydpi: real)

  datatype SessionData = SessionData(
    age: int,
    configuration: Configuration,
    date: string,
    deviceData: DeviceData,
    gender: string,
    name: string,
    surname: string)

  /** One capture in the snake_case wire variant: sampled points are a flat list. */
  datatype ItemData = ItemData(
    date: string,
    item: string,
    itemIndex: int,
    movementPoints: seq<Point>,
    sampledPoints: seq<Point>,
    sessionData: SessionData,
    touchDownPoints: seq<Point>,
    touchUpPoints: seq<Point>)

  /** One capture in the camelCase wire variant: sampled points are one list per stroke. */
  datatype ItemDataJson = ItemDataJson(
    date: string,
    item: string,
    itemIndex: int,
    movementPoints: seq<Point>,
    sampledPoints: seq<seq<Point>>,
    sessionData: SessionData,
    touchDownPoints: seq<Point>,
    touchUpPoints: seq<Point>)
}
