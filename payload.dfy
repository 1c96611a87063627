/** The request body built by `appendToFormData`: an ordered list of
    (name, value) FormData entries. The multipart wire encoding that the
    browser derives from it is not modelled. */
module FormPayload {
  import opened Wrappers

  /** A FormData entry value: a string, or a file (a Blob with a name). */
  datatype FormDataValue = Text(s: string) | Blob(name: string, bytes: seq<bv8>)

  /** The `facilities` form value: an array of facility ids, or some value
      that is not an array (`Array.isArray` is false). */
  datatype Facilities = Ids(ids: seq<string>) | NotArray(raw: string)

  /** The values `onSubmit` receives (the `Inputs` interface). `imgs` holds
      what the file input or the edit seeding put there. */
  datatype Inputs = Inputs(
    roomNumber: string,
    price: string,
    capacity: string,
    discount: string,
    facilities: Facilities,
    imgs: seq<FormDataValue>)

  type Entry = (string, FormDataValue)
  type Payload = seq<Entry>

  /** The ids that get a `facilities[]` entry: the array's elements, or none
      when the value is not an array. */
  function SelectedIds(f: Facilities): seq<string>
  {
    match f
    case Ids(ids) => ids
    case NotArray(_) => []
  }

  /** `p` is the FormData built from `data`: the four scalar fields in order,
      then one `facilities[]` entry per selected id in array order, then one
      `imgs` entry per image in index order, and nothing else. */
  ghost predicate Encodes(p: Payload, data: Inputs)
  {
    var ids := SelectedIds(data.facilities);
    && |p| == 4 + |ids| + |data.imgs|
    && p[..4] == [("roomNumber", Text(data.roomNumber)), ("price", Text(data.price)),
                  ("capacity", Text(data.capacity)), ("discount", Text(data.discount))]
    && (forall i :: 0 <= i < |ids| ==> p[4 + i] == ("facilities[]", Text(ids[i])))
    && (forall j :: 0 <= j < |data.imgs| ==> p[4 + |ids| + j] == ("imgs", data.imgs[j]))
  }

  /** appendToFormData: successive `append` calls, a loop over the facility
      array when it is one, and a loop over `imgs`. The input is a value and
      is left as it was. */
  method AppendToFormData(data: Inputs) returns (formData: Payload)
    ensures Encodes(formData, data)
    ensures |formData| == 4 + |SelectedIds(data.facilities)| + |data.imgs|
  {
    formData := [];
    formData := formData + [("roomNumber", Text(data.roomNumber))];
    formData := formData + [("price", Text(data.price))];
    formData := formData + [("capacity", Text(data.capacity))];
    formData := formData + [("discount", Text(data.discount))];
    ghost var scalars := formData;
    if data.facilities.Ids? {
      var ids := data.facilities.ids;
      for k := 0 to |ids|
        invariant |formData| == 4 + k
        invariant formData[..4] == scalars
        invariant forall i :: 0 <= i < k ==> formData[4 + i] == ("facilities[]", Text(ids[i]))
      {
        formData := formData + [("facilities[]", Text(ids[k]))];
      }
    }
    ghost var ids := SelectedIds(data.facilities);
    ghost var nf := |ids|;
    for i := 0 to |data.imgs|
      invariant |formData| == 4 + nf + i
      invariant formData[..4] == scalars
      invariant forall k :: 0 <= k < nf ==> formData[4 + k] == ("facilities[]", Text(ids[k]))
      invariant forall j :: 0 <= j < i ==> formData[4 + nf + j] == ("imgs", data.imgs[j])
    {
      formData := formData + [("imgs", data.imgs[i])];
    }
  }

  /** Leading `facilities[]` text entries, as a receiver reads them, and what
      follows them. */
  function ReadFacilityEntries(p: Payload): (r: (seq<string>, Payload))
    ensures |r.0| + |r.1| == |p|
    ensures r.1 == p[|r.0|..]
    ensures forall i :: 0 <= i < |r.0| ==> p[i] == ("facilities[]", Text(r.0[i]))
    ensures r.1 != [] ==> r.1[0].0 != "facilities[]" || !r.1[0].1.Text?
    decreases |p|
  {
    if p != [] && p[0].0 == "facilities[]" && p[0].1.Text? then
      var (ids, rest) := ReadFacilityEntries(p[1..]);
      ([p[0].1.s] + ids, rest)
    else ([], p)
  }

  /** The remaining entries when every one of them is named `imgs`. */
  function ReadImageEntries(p: Payload): (r: Option<seq<FormDataValue>>)
    ensures r.Some? <==> forall i :: 0 <= i < |p| ==> p[i].0 == "imgs"
    ensures r.Some? ==> |r.value| == |p| && forall i :: 0 <= i < |p| ==> r.value[i] == p[i].1
    decreases |p|
  {
    if p == [] then Some([])
    else if p[0].0 != "imgs" then None
    else
      match ReadImageEntries(p[1..])
      case None => None
      case Some(imgs) => Some([p[0].1] + imgs)
  }

  /** How a receiver reads the room back from the body: four text scalars
      in order, the `facilities[]` entries, then the `imgs` entries. */
  function ParseFormData(p: Payload): Option<Inputs>
  {
    if |p| < 4 then None
    else if p[0].0 != "roomNumber" || p[1].0 != "price" || p[2].0 != "capacity" || p[3].0 != "discount"
    then None
    else if !(p[0].1.Text? && p[1].1.Text? && p[2].1.Text? && p[3].1.Text?) then None
    else
      var (ids, rest) := ReadFacilityEntries(p[4..]);
      match ReadImageEntries(rest)
      case None => None
      case Some(imgs) => Some(Inputs(p[0].1.s, p[1].1.s, p[2].1.s, p[3].1.s, Ids(ids), imgs))
  }

  /** `data` as the body carries it: a non-array facilities value is lost. */
  function AsSent(data: Inputs): Inputs
  {
    data.(facilities := Ids(SelectedIds(data.facilities)))
  }

  /** Reading the built body gives back every field, with the facilities as
      the array of ids that were appended. */
  lemma ParseAfterAppend(p: Payload, data: Inputs)
    requires Encodes(p, data)
    ensures ParseFormData(p) == Some(AsSent(data))
  {
    assert p[0] == p[..4][0] && p[1] == p[..4][1] && p[2] == p[..4][2] && p[3] == p[..4][3];
    FacilitiesReadBack(p, data);
    ImagesReadBack(p, data);
  }

  /** The `facilities[]` entries of a built body are read back in order, and
      the reader stops at the first `imgs` entry. */
  lemma FacilitiesReadBack(p: Payload, data: Inputs)
    requires Encodes(p, data)
    ensures ReadFacilityEntries(p[4..]) == (SelectedIds(data.facilities), p[4 + |SelectedIds(data.facilities)|..])
  {
    var ids := SelectedIds(data.facilities);
    var tail := p[4..];
    if |ids| < |tail| {
      assert tail[|ids|] == p[4 + |ids| + 0] == ("imgs", data.imgs[0]);
    }
    ReadAllFacilities(tail, ids, ReadFacilityEntries(tail).0);
  }

  /** The entries after the facilities of a built body are read back as the
      images, in order. */
  lemma ImagesReadBack(p: Payload, data: Inputs)
    requires Encodes(p, data)
    ensures ReadImageEntries(p[4 + |SelectedIds(data.facilities)|..]) == Some(data.imgs)
  {
    var nf := |SelectedIds(data.facilities)|;
    var rest := p[4 + nf..];
    forall j | 0 <= j < |rest|
      ensures rest[j] == ("imgs", data.imgs[j])
    {
      assert rest[j] == p[4 + nf + j];
    }
    var imgs := ReadImageEntries(rest);
    assert imgs.value == data.imgs;
  }

  /** The facility reader consumes exactly the `facilities[]` prefix when an
      entry of another name (or the end) follows it. */
  lemma {:induction false} ReadAllFacilities(p: Payload, ids: seq<string>, read: seq<string>)
    requires |ids| <= |p|
    requires forall i :: 0 <= i < |ids| ==> p[i] == ("facilities[]", Text(ids[i]))
    requires |ids| < |p| ==> p[|ids|].0 != "facilities[]"
    requires read == ReadFacilityEntries(p).0
    ensures read == ids
    decreases |ids|
  {
    if ids == [] {
      if p != [] {
        assert p[0].0 != "facilities[]";
      }
    } else {
      assert p[0] == ("facilities[]", Text(ids[0]));
      ReadAllFacilities(p[1..], ids[1..], ReadFacilityEntries(p[1..]).0);
    }
  }

  /** The builder is deterministic: one form state has one body. */
  lemma EncodesDeterministic(p1: Payload, p2: Payload, data: Inputs)
    requires Encodes(p1, data) && Encodes(p2, data)
    ensures p1 == p2
  {
    var ids := SelectedIds(data.facilities);
    var nf := |ids|;
    forall k | 0 <= k < |p1|
      ensures p1[k] == p2[k]
    {
      if k < 4 {
        assert p1[k] == p1[..4][k] && p2[k] == p2[..4][k];
      } else if k < 4 + nf {
        var i := k - 4;
        assert p1[4 + i] == ("facilities[]", Text(ids[i])) == p2[4 + i];
      } else {
        var j := k - 4 - nf;
        assert p1[4 + nf + j] == ("imgs", data.imgs[j]) == p2[4 + nf + j];
      }
    }
  }
}
