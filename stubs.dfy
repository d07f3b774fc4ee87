/** The entry points of the core that answer with a constant: geometry,
    save states, memory banks, content loading and region. */
module Stubs {
  import opened Pixels

  /** C's `unsigned` (32 bits). */
  type Unsigned = x: int | 0 <= x < 0x1_0000_0000

  datatype Option<T> = None | Some(value: T)

  /** The integer part of retro_system_av_info: the geometry. */
  datatype Geometry = Geometry(baseWidth: int, baseHeight: int, maxWidth: int, maxHeight: int)

  /** What the host passes to retro_load_game: the content's path and bytes. */
  datatype GameInfo = GameInfo(path: string, data: seq<bv8>, meta: string)

  datatype Region = NTSC | PAL

  /** libretro.h's RETRO_API_VERSION. */
  const RetroApiVersion: Unsigned := 1

  /** retro_get_system_av_info: the frame is 640 x 480 and never grows. */
  function SystemAvGeometry(): (g: Geometry)
    ensures g.baseWidth == Width && g.baseHeight == Height
    ensures g.maxWidth == g.baseWidth && g.maxHeight == g.baseHeight
  {
    Geometry(640, 480, 640, 480)
  }

  /** Save states are not supported: their size is zero ... */
  function SerializeSize(): (n: nat)
    ensures n == 0
  {
    0
  }

  /** ... and saving into any buffer is refused ... */
  function Serialize(data: seq<bv8>, size: nat): (ok: bool)
    ensures !ok
  {
    false
  }

  /** ... as is restoring from any buffer. */
  function Unserialize(data: seq<bv8>, size: nat): (ok: bool)
    ensures !ok
  {
    false
  }

  /** No memory bank is exposed, whatever the id (None is the NULL pointer). */
  function GetMemoryData(id: Unsigned): (p: Option<seq<bv8>>)
    ensures p == None
  {
    None
  }

  function GetMemorySize(id: Unsigned): (n: nat)
    ensures n == 0
  {
    0
  }

  /** Loading succeeds with or without content (None is the NULL pointer). */
  function LoadGame(game: Option<GameInfo>): (ok: bool)
    ensures ok
  {
    true
  }

  /** Special content types are refused. */
  function LoadGameSpecial(gameType: Unsigned, info: seq<GameInfo>, numInfo: nat): (ok: bool)
    ensures !ok
  {
    false
  }

  function GetRegion(): (r: Region)
    ensures r == NTSC
  {
    NTSC
  }

  function ApiVersion(): (v: Unsigned)
    ensures v == RetroApiVersion
  {
    RetroApiVersion
  }
}
