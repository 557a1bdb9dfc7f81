/** Envelopes as the routing code sees them. */
module Envelopes {
  import opened Bytes

  datatype Envelope = Envelope(to: string, sender: string, message: Data)
}
