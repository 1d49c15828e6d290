/** The records shared by the studio page and the generation service (types.ts). */
module Types {

  /** A value that may be absent: `undefined`/`null` in the source. */
  datatype Option<+T> = None | Some(value: T)

  /** The two aspect ratios the generator offers: Landscape is '16:9',
      Portrait is '9:16'. */
  datatype AspectRatio = Landscape | Portrait

  /** The two output resolutions: HD is '720p', FullHD is '1080p'. */
  datatype Resolution = HD | FullHD

  /** What the user asks for. `image` is the reference frame as a data URL,
      when one was picked. */
  datatype VideoConfig = VideoConfig(
    prompt: string,
    aspectRatio: AspectRatio,
    resolution: Resolution,
    image: Option<string>)

  /** One entry of the history gallery. `url` is the local object URL the
      generator produced; `timestamp` is milliseconds since the epoch. */
  datatype GeneratedVideo = GeneratedVideo(
    id: string,
    url: string,
    prompt: string,
    timestamp: int,
    aspectRatio: AspectRatio,
    resolution: Resolution)
}
