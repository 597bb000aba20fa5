/**
  The healthy/unhealthy bucketing of the binary datasets: every class
  whose lower-cased name contains "healthy" adds its images to the
  healthy list, every other class to the unhealthy list, in the order
  of the classes.
*/
module Bucketing {
  import opened Dicts
  import opened Labels

  /** The images of the classes the test puts in the healthy bucket, in class order. */
  function HealthyImages<T>(classes: Dict<seq<T>>): seq<T>
    decreases |classes|
  {
    if classes == [] then []
    else (if IsHealthyClass(classes[0].0) then classes[0].1 else []) + HealthyImages(classes[1..])
  }

  /** The images of the other classes, in class order. */
  function UnhealthyImages<T>(classes: Dict<seq<T>>): seq<T>
    decreases |classes|
  {
    if classes == [] then []
    else (if IsHealthyClass(classes[0].0) then [] else classes[0].1) + UnhealthyImages(classes[1..])
  }

  /** All images of all classes, in class order. */
  function AllImages<T>(classes: Dict<seq<T>>): seq<T>
    decreases |classes|
  {
    if classes == [] then [] else classes[0].1 + AllImages(classes[1..])
  }

  lemma SplitHead<T>(a: Dict<seq<T>>, b: Dict<seq<T>>)
    requires a != []
    ensures (a + b)[0] == a[0] && (a + b)[1..] == a[1..] + b
  {}

  /** Bucketing a concatenation of classes appends the buckets: images keep the class order. */
  lemma {:induction false} HealthyConcat<T>(a: Dict<seq<T>>, b: Dict<seq<T>>)
    ensures HealthyImages(a + b) == HealthyImages(a) + HealthyImages(b)
    decreases |a|
  {
    if a == [] {
      assert a + b == b;
    } else {
      SplitHead(a, b);
      HealthyConcat(a[1..], b);
    }
  }

  lemma {:induction false} UnhealthyConcat<T>(a: Dict<seq<T>>, b: Dict<seq<T>>)
    ensures UnhealthyImages(a + b) == UnhealthyImages(a) + UnhealthyImages(b)
    decreases |a|
  {
    if a == [] {
      assert a + b == b;
    } else {
      SplitHead(a, b);
      UnhealthyConcat(a[1..], b);
    }
  }

  /**
    The two buckets split the images: together they hold every image of
    every class exactly as often as the classes do, so their sizes add up
    to the total.
  */
  lemma {:induction false} BucketsPartition<T>(classes: Dict<seq<T>>)
    ensures multiset(HealthyImages(classes)) + multiset(UnhealthyImages(classes)) == multiset(AllImages(classes))
    ensures |HealthyImages(classes)| + |UnhealthyImages(classes)| == |AllImages(classes)|
    decreases |classes|
  {
    if classes != [] {
      BucketsPartition(classes[1..]);
    }
  }

  /** An image is in the healthy bucket exactly when some class that passes the test has it. */
  lemma {:induction false} HealthyMembers<T>(classes: Dict<seq<T>>, x: T)
    ensures x in HealthyImages(classes) <==>
            exists i :: 0 <= i < |classes| && IsHealthyClass(classes[i].0) && x in classes[i].1
    decreases |classes|
  {
    if classes != [] {
      HealthyMembers(classes[1..], x);
      if x in HealthyImages(classes[1..]) {
        var i :| 0 <= i < |classes[1..]| && IsHealthyClass(classes[1..][i].0) && x in classes[1..][i].1;
        assert classes[i + 1] == classes[1..][i];
      }
      forall i | 1 <= i < |classes| && IsHealthyClass(classes[i].0) && x in classes[i].1
        ensures x in HealthyImages(classes[1..])
      {
        assert classes[1..][i - 1] == classes[i];
      }
    }
  }

  /** An image is in the unhealthy bucket exactly when some class that fails the test has it. */
  lemma {:induction false} UnhealthyMembers<T>(classes: Dict<seq<T>>, x: T)
    ensures x in UnhealthyImages(classes) <==>
            exists i :: 0 <= i < |classes| && !IsHealthyClass(classes[i].0) && x in classes[i].1
    decreases |classes|
  {
    if classes != [] {
      UnhealthyMembers(classes[1..], x);
      if x in UnhealthyImages(classes[1..]) {
        var i :| 0 <= i < |classes[1..]| && !IsHealthyClass(classes[1..][i].0) && x in classes[1..][i].1;
        assert classes[i + 1] == classes[1..][i];
      }
      forall i | 1 <= i < |classes| && !IsHealthyClass(classes[i].0) && x in classes[i].1
        ensures x in UnhealthyImages(classes[1..])
      {
        assert classes[1..][i - 1] == classes[i];
      }
    }
  }

  /** One class of the bucketing loop, appended to the lists `h0` and `u0` it started from. */
  lemma BucketsStep<T>(h0: seq<T>, u0: seq<T>, classes: Dict<seq<T>>, i: nat)
    requires i < |classes|
    ensures h0 + HealthyImages(classes[..i + 1])
            == (h0 + HealthyImages(classes[..i])) + (if IsHealthyClass(classes[i].0) then classes[i].1 else [])
    ensures u0 + UnhealthyImages(classes[..i + 1])
            == (u0 + UnhealthyImages(classes[..i])) + (if IsHealthyClass(classes[i].0) then [] else classes[i].1)
  {
    assert classes[..i + 1] == classes[..i] + [classes[i]];
    HealthyConcat(classes[..i], [classes[i]]);
    UnhealthyConcat(classes[..i], [classes[i]]);
  }

  /**
    The loop over one vegetable type's classes, in `create_binary_per_veggie`
    and in `create_binary_all_veggies`: each class's images go to the end
    of `healthy_images` or of `unhealthy_images` (`extend`).
  */
  method ExtendBuckets<T>(healthy: seq<T>, unhealthy: seq<T>, classes: Dict<seq<T>>)
    returns (healthy': seq<T>, unhealthy': seq<T>)
    ensures healthy' == healthy + HealthyImages(classes)
    ensures unhealthy' == unhealthy + UnhealthyImages(classes)
  {
    healthy', unhealthy' := healthy, unhealthy;
    assert classes[..0] == [];
    for i := 0 to |classes|
      invariant healthy' == healthy + HealthyImages(classes[..i])
      invariant unhealthy' == unhealthy + UnhealthyImages(classes[..i])
    {
      BucketsStep(healthy, unhealthy, classes, i);
      var className, images := classes[i].0, classes[i].1;
      if IsHealthyClass(className) {
        healthy' := healthy' + images;
      } else {
        unhealthy' := unhealthy' + images;
      }
    }
    assert classes[..|classes|] == classes;
  }

  /** The classes of all vegetable types, one type after the other. */
  function AllClasses<T>(data: Dict<Dict<seq<T>>>): Dict<seq<T>>
    decreases |data|
  {
    if data == [] then [] else data[0].1 + AllClasses(data[1..])
  }

  /** One vegetable type of the outer loop. */
  lemma AllClassesStep<T>(data: Dict<Dict<seq<T>>>, v: nat)
    requires v < |data|
    ensures HealthyImages(AllClasses(data[..v + 1])) == HealthyImages(AllClasses(data[..v])) + HealthyImages(data[v].1)
    ensures UnhealthyImages(AllClasses(data[..v + 1])) == UnhealthyImages(AllClasses(data[..v])) + UnhealthyImages(data[v].1)
  {
    AllClassesConcat(data[..v], [data[v]]);
    assert data[..v + 1] == data[..v] + [data[v]];
    assert AllClasses([data[v]]) == data[v].1 + AllClasses([]);
    assert data[v].1 + [] == data[v].1;
    assert AllClasses(data[..v + 1]) == AllClasses(data[..v]) + data[v].1;
    HealthyConcat(AllClasses(data[..v]), data[v].1);
    UnhealthyConcat(AllClasses(data[..v]), data[v].1);
  }

  lemma {:induction false} AllClassesConcat<T>(a: Dict<Dict<seq<T>>>, b: Dict<Dict<seq<T>>>)
    ensures AllClasses(a + b) == AllClasses(a) + AllClasses(b)
    decreases |a|
  {
    if a == [] {
      assert a + b == b;
    } else {
      assert (a + b)[0] == a[0] && (a + b)[1..] == a[1..] + b;
      AllClassesConcat(a[1..], b);
    }
  }

  /**
    The outer loop of `create_binary_all_veggies`: the buckets of all
    vegetable types together are the buckets of all their classes, type
    after type.
  */
  method BucketAllVeggies<T>(data: Dict<Dict<seq<T>>>) returns (healthy: seq<T>, unhealthy: seq<T>)
    ensures healthy == HealthyImages(AllClasses(data))
    ensures unhealthy == UnhealthyImages(AllClasses(data))
  {
    healthy, unhealthy := [], [];
    for v := 0 to |data|
      invariant healthy == HealthyImages(AllClasses(data[..v]))
      invariant unhealthy == UnhealthyImages(AllClasses(data[..v]))
    {
      AllClassesStep(data, v);
      healthy, unhealthy := ExtendBuckets(healthy, unhealthy, data[v].1);
    }
    assert data[..|data|] == data;
  }
}
