/** The five example profile images and the `imageId` that selects one. */
module ProfileImages {
  import opened Records

  datatype ExampleImage = ExampleImage(id: int, url: string)

  /** The decimal digit for `d`. */
  function DigitChar(d: int): char
    requires 0 <= d <= 9
  {
    ('0' as int + d) as char
  }

  /** The path `/images/<id>.jpg` of example image `id`. */
  function ImagePath(id: int): (p: string)
    requires 1 <= id <= 5
    ensures |p| == 13 && p[..8] == "/images/" && p[9..] == ".jpg"
    ensures p[8] as int - '0' as int == id
  {
    "/images/" + [DigitChar(id)] + ".jpg"
  }

  /** Distinct example ids have distinct paths. */
  lemma ImagePathInjective(i: int, j: int)
    requires 1 <= i <= 5 && 1 <= j <= 5
    ensures ImagePath(i) == ImagePath(j) <==> i == j
  {
    if ImagePath(i) == ImagePath(j) {
      assert ImagePath(i)[8] == ImagePath(j)[8];
    }
  }

  /** `ids.map(i => ({ id: i, url: `/images/${i}.jpg` }))`. */
  function ImagesFor(ids: seq<int>): (r: seq<ExampleImage>)
    requires forall k :: 0 <= k < |ids| ==> 1 <= ids[k] <= 5
    ensures |r| == |ids|
    ensures forall k :: 0 <= k < |ids| ==> r[k].id == ids[k] && r[k].url == ImagePath(ids[k])
  {
    if ids == [] then []
    else [ExampleImage(ids[0], ImagePath(ids[0]))] + ImagesFor(ids[1..])
  }

  /** The list `GET /example-images` returns. */
  function ExampleImages(): (r: seq<ExampleImage>)
    ensures |r| == 5
    ensures forall k :: 0 <= k < 5 ==> r[k].id == k + 1 && r[k].url == ImagePath(k + 1)
  {
    ImagesFor([1, 2, 3, 4, 5])
  }

  /** The guard of `POST /profile` as written: the body's `imageId`, a JSON
      number or absent, is rejected when falsy, below 1 or above 5. */
  predicate GuardAsWritten(imageId: Option<real>): (ok: bool)
    ensures ok <==> imageId.Some? && 1.0 <= imageId.value <= 5.0
  {
    !(imageId.None? || imageId.value == 0.0 || imageId.value < 1.0 || imageId.value > 5.0)
  }

  /** The guard lets through a fractional id that names no example image;
      the handler would then store the path `/images/2.5.jpg`. */
  lemma GuardAdmitsFraction()
    ensures GuardAsWritten(Some(2.5))
    ensures forall e :: e in ExampleImages() ==> e.id as real != 2.5
  {
    var r := ExampleImages();
    forall e | e in r ensures e.id as real != 2.5 {
      var k :| 0 <= k < |r| && r[k] == e;
    }
  }

  /** The corrected guard: `imageId` is one of the whole numbers 1 to 5. */
  predicate ValidImageId(imageId: Option<real>)
  {
    imageId.Some? && imageId.value.Floor as real == imageId.value
    && 1 <= imageId.value.Floor <= 5
  }

  /** The corrected guard admits exactly the ids `GET /example-images`
      offers, and only ids the written guard admits too. */
  lemma ValidImageIdIsExample(v: real)
    ensures ValidImageId(Some(v)) <==> exists e :: e in ExampleImages() && e.id as real == v
    ensures ValidImageId(Some(v)) ==> GuardAsWritten(Some(v))
  {
    var r := ExampleImages();
    if ValidImageId(Some(v)) {
      assert r[v.Floor - 1] in r;
    }
    if exists e :: e in r && e.id as real == v {
      var e :| e in r && e.id as real == v;
      var k :| 0 <= k < |r| && r[k] == e;
    }
  }

  /** The path stored for a valid `imageId`: that example image's url. */
  function SelectedImage(imageId: Option<real>): (p: string)
    requires ValidImageId(imageId)
    ensures exists e :: e in ExampleImages() && e.id as real == imageId.value && e.url == p
  {
    var r := ExampleImages();
    assert r[imageId.value.Floor - 1] in r;
    ImagePath(imageId.value.Floor)
  }
}
