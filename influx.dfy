/** The part of the time-series database client that the batching routine
    uses: points, and a write API that collects points into one batch. */
module Influx {

  /** When a point happened. `Implicit` is a point without a timestamp
      (the writer stamps it when it is written); `Millis` is a valid
      JavaScript `Date`, in milliseconds since the epoch; `InvalidDate` is a
      `Date` outside the range a JavaScript `Date` can hold; `NonDecimalKey`
      stands for a timestamp read from a key that is not a decimal digit
      string, whose value this model does not compute. */
  datatype Time = Implicit | Millis(ms: int) | InvalidDate | NonDecimalKey(key: string)

  /** A measurement with its single float field `value`. */
  datatype Point = Point(measurement: string, value: real, time: Time)

  /** How the database answered the final flush. */
  datatype WriteError = HttpError(statusCode: int) | OtherError
  datatype CloseOutcome = Flushed | Failed(error: WriteError)

  /** A write API for one organisation and bucket: the points written to
      it, in order, and the tags added to every point written. */
  class WriteApi {
    const org: string
    const bucket: string
    const precision: string
    var written: seq<Point>
    var defaultTags: map<string, string>
    var closed: bool

    constructor (org: string, bucket: string, precision: string)
      ensures this.org == org && this.bucket == bucket && this.precision == precision
      ensures written == [] && defaultTags == map[] && !closed
    {
      this.org := org;
      this.bucket := bucket;
      this.precision := precision;
      written := [];
      defaultTags := map[];
      closed := false;
    }

    /** Replaces the default tags. */
    method UseDefaultTags(tags: map<string, string>)
      modifies this
      ensures defaultTags == tags
      ensures written == old(written) && closed == old(closed)
    {
      defaultTags := tags;
    }

    /** Appends one point to the batch. */
    method WritePoint(p: Point)
      requires !closed
      modifies this
      ensures written == old(written) + [p]
      ensures defaultTags == old(defaultTags) && !closed
    {
      written := written + [p];
    }

    /** Flushes the batch and closes the API; the database's answer is
        `outcome`, which comes from outside the model. */
    method Close(outcome: CloseOutcome) returns (r: CloseOutcome)
      modifies this
      ensures r == outcome && closed
      ensures written == old(written) && defaultTags == old(defaultTags)
    {
      closed := true;
      r := outcome;
    }
  }
}
