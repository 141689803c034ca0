/**
 The JSON envelopes the user routes send, kept abstract: the model records which
 envelope was written and what it holds, not its indented byte layout.
 */
module Envelope {

  /** One record of a favorites or articles listing, as its field map (e.g. "board_id"). */
  type Record = map<string, string>

  /** The profile fields the backend returns for a user (e.g. "user_id"). */
  type Profile = map<string, string>

  /** A Go slice of records: `Nil` is the nil slice, which serialises as JSON `null`. */
  datatype Items = Nil | List(records: seq<Record>)

  datatype Body =
    /** `{"data": <profile>}` */
    | Data(profile: Profile)
    /** `{"data": {"items": <items>}}` */
    | DataItems(items: Items)
    /** `{"error": <error>, "error_description": <description>}` */
    | ErrorBody(error: string, description: string)

}
