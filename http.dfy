/** The replies the platform and analysis handlers send, with their status codes. */
module Http {
  import opened Schema

  datatype Response =
    | Listed(platforms: seq<Platform>)              // 200, the array of rows
    | Created(platform: Platform)                   // 201, the new row
    | Synced(platform: Platform)                    // 200, the updated row
    | NoContent                                     // 204, empty body
    | Analysis(analysis: string)                    // 200, { analysis }
    | ValidationError(message: string, field: string) // 400, { message, field }
    | NotFound                                      // 404, { message: "Not found" }
    | Unauthorized                                  // 401, { message: "Unauthorized" }
    | ServerError(message: string)                  // 500, { message }

  function StatusCode(r: Response): int
  {
    match r
    case Listed(_) => 200
    case Created(_) => 201
    case Synced(_) => 200
    case NoContent => 204
    case Analysis(_) => 200
    case ValidationError(_, _) => 400
    case NotFound => 404
    case Unauthorized => 401
    case ServerError(_) => 500
  }
}
