/** The pothole records: as the backend sends them and as the map component
    keeps them, and the reshaping `fetchPotholes` applies between the two. */
module Potholes {

  /** A `[latitude, longitude]` pair, latitude first. */
  type LatLng = (real, real)

  /** One already-parsed record of the backend's list. */
  datatype PotholeRecord = PotholeRecord(latitude: real, longitude: real, severity: real)

  /** One pothole in the component's state. */
  datatype Pothole = Pothole(coordinates: LatLng, severity: real)

  /** The callback given to `data.map`: the coordinates are latitude first,
      the severity is copied, and the record can be read back. */
  function Format(rec: PotholeRecord): (p: Pothole)
    ensures p.coordinates.0 == rec.latitude && p.coordinates.1 == rec.longitude
    ensures p.severity == rec.severity
    ensures Unformat(p) == rec
  {
    Pothole((rec.latitude, rec.longitude), rec.severity)
  }

  /** `data.map(...)`: one pothole per record, in the same order, with the
      coordinates latitude first and the severity copied unchanged. */
  function FormatAll(data: seq<PotholeRecord>): (ps: seq<Pothole>)
    ensures |ps| == |data|
    ensures forall i :: 0 <= i < |data| ==>
      ps[i].coordinates.0 == data[i].latitude &&
      ps[i].coordinates.1 == data[i].longitude &&
      ps[i].severity == data[i].severity
  {
    if data == [] then [] else [Format(data[0])] + FormatAll(data[1..])
  }

  /** The record a pothole was made from. */
  function Unformat(p: Pothole): PotholeRecord {
    PotholeRecord(p.coordinates.0, p.coordinates.1, p.severity)
  }

  function UnformatAll(ps: seq<Pothole>): (data: seq<PotholeRecord>)
    ensures |data| == |ps|
  {
    if ps == [] then [] else [Unformat(ps[0])] + UnformatAll(ps[1..])
  }

  /** Reshaping loses nothing: the records can be recovered from the potholes. */
  lemma {:induction false} FormatAllRoundTrip(data: seq<PotholeRecord>)
    ensures UnformatAll(FormatAll(data)) == data
  {
    if data != [] {
      FormatAllRoundTrip(data[1..]);
      assert FormatAll(data)[1..] == FormatAll(data[1..]);
    }
  }

  /** Reshaping a concatenation reshapes each part in place: order is kept. */
  lemma {:induction false} FormatAllAppend(a: seq<PotholeRecord>, b: seq<PotholeRecord>)
    ensures FormatAll(a + b) == FormatAll(a) + FormatAll(b)
  {
    if a != [] {
      assert (a + b)[1..] == a[1..] + b;
      FormatAllAppend(a[1..], b);
    }
  }
}
