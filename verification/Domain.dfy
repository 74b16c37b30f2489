/** Player classification shared by the crawler and the ingestor. */
module Domain {

  function BucketForTrophies(trophies: int): int {
    if trophies < 500 then 1 else if trophies < 2000 then 2 else if trophies < 10000 then 3
    else if trophies < 20000 then 4 else if trophies < 40000 then 5 else 6
  }

  function PriorityForTrophies(trophies: int): int {
    if trophies >= 40000 then 1 else if trophies >= 20000 then 2 else if trophies >= 10000 then 3
    else if trophies >= 2000 then 4 else if trophies >= 500 then 6 else 8
  }

  /** The six buckets, by their boundaries. */
  lemma Buckets(trophies: int)
    ensures 1 <= BucketForTrophies(trophies) <= 6
    ensures BucketForTrophies(trophies) >= 2 <==> trophies >= 500
    ensures BucketForTrophies(trophies) >= 3 <==> trophies >= 2_000
    ensures BucketForTrophies(trophies) >= 4 <==> trophies >= 10_000
    ensures BucketForTrophies(trophies) >= 5 <==> trophies >= 20_000
    ensures BucketForTrophies(trophies) >= 6 <==> trophies >= 40_000
  {}

  /** Priorities follow the buckets, the highest bucket first. */
  lemma Priorities(trophies: int)
    ensures PriorityForTrophies(trophies) == match BucketForTrophies(trophies)
                                             case 6 => 1 case 5 => 2 case 4 => 3 case 3 => 4 case 2 => 6 case _ => 8
  {
    Buckets(trophies);
  }
}
