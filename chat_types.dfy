/** The chat wire types: what one `data:` record of the chat stream parses to. */
module ChatTypes {

  /** A voucher attached to a recommendation reply (its floating-point `distance` is not modelled). */
  datatype Voucher = Voucher(
    id: int,
    name: string,
    category: string,
    price: int,
    facilityName: string,
    description: string,
    telephone: string)

  /** A workout video attached to a home-workout reply. */
  datatype Video = Video(title: string, youtubeCode: string)

  /**
   * A parsed stream record, discriminated by its `type` field. `Unrecognised`
   * stands for a record that parsed as JSON but whose `type` is none of the
   * three the application knows.
   */
  datatype ChatResponse =
    | Talk(chunk: string)
    | Recommend(message: string, vouchers: seq<Voucher>)
    | HomeWorkout(message: string, videos: seq<Video>)
    | Unrecognised
}
