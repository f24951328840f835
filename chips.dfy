/** The amenity row of a room card, which the room browser and the room
    administration page draw alike: the first three amenities as chips, then
    one overflow chip when more exist. Only the overflow chip's text differs
    between the two pages, so it is a parameter. */
module Chips {
  import Seqs

  /** How many amenities a card shows before the overflow chip. */
  const Limit: nat := 3

  datatype Chip = AmenityChip(name: string) | MoreChip(text: string)

  /** `amenities.slice(0, 3)` as chips, then `moreText(length - 3)` when the
      length is above 3. */
  function AmenityChips(amenities: seq<string>, moreText: nat -> string): (chips: seq<Chip>)
    ensures |chips| <= Limit + 1
    ensures forall k :: 0 <= k < |chips| && k < Limit ==> k < |amenities| && chips[k] == AmenityChip(amenities[k])
    ensures |chips| == Limit + 1 <==> |amenities| > Limit
    ensures |chips| == Limit + 1 ==> chips[Limit] == MoreChip(moreText(|amenities| - Limit))
    ensures |amenities| <= Limit ==> |chips| == |amenities|
  {
    var p := Seqs.PreviewOf(amenities, Limit);
    var shown := seq(|p.shown|, k requires 0 <= k < |p.shown| => AmenityChip(p.shown[k]));
    if p.hidden > 0 then shown + [MoreChip(moreText(p.hidden))] else shown
  }
}
