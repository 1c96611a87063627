/** The RoomsData component: the facilities load, the edit-mode seeding of
    the form and the submit handler, as a state machine over the flags
    `loading` and `spinner`. Toasts, navigation and HTTP requests are
    recorded as events; the outcome of each awaited request is a parameter
    of the method that models the code after the `await`. */
module RoomsData {
  import opened Wrappers
  import opened Paths
  import opened FormPayload
  import opened Validation
  import opened Routing

  /** A facility as the API returns it (`_id`, `name`). */
  datatype Facility = Facility(id: string, name: string)

  /** The room record passed in the navigation state when editing. */
  datatype Room = Room(
    roomNumber: string,
    price: string,
    capacity: string,
    discount: string,
    facilities: seq<Facility>,
    images: seq<string>)

  datatype ToastKind = SuccessToast | ErrorToast

  /** Calls into collaborators whose code is not part of the model. */
  datatype Event =
    | Get(url: string)
    | Send(request: Request)
    | Toast(kind: ToastKind, message: string)
    | Navigate(path: string)

  /** How an awaited request settles: its response, or the message that
      `getErrorMessage` extracts from the error. */
  datatype Outcome<T> = Resolved(value: T) | Rejected(message: string)

  const FacilitiesUrl := "/admin/room-facilities"
  const ListingPath := "/dashboard/rooms"

  /** `roomData.facilities.map(item => item._id)`. */
  function FacilityIds(fs: seq<Facility>): (ids: seq<string>)
    ensures |ids| == |fs|
    ensures forall i :: 0 <= i < |fs| ==> ids[i] == fs[i].id
    decreases |fs|
  {
    if fs == [] then [] else [fs[0].id] + FacilityIds(fs[1..])
  }

  /** `[...s]` on a string: one one-character string per character. */
  function SpreadChars(s: string): (items: seq<FormDataValue>)
    ensures |items| == |s|
    ensures forall i :: 0 <= i < |s| ==> items[i] == Text([s[i]])
    decreases |s|
  {
    if s == [] then [] else [Text([s[0]])] + SpreadChars(s[1..])
  }

  /** The form store after the edit seeding: the scalar fields and the
      facility ids from the room, and `imgs` overwritten once per stored
      image, so that only the last one is left (and nothing is set when the
      room has no image). */
  function Seeded(v: FormValues, room: Room): FormValues
  {
    v.(roomNumber := Some(room.roomNumber),
       price := Some(room.price),
       capacity := Some(room.capacity),
       discount := Some(room.discount),
       facilities := Some(Ids(FacilityIds(room.facilities))),
       imgs := if room.images == [] then v.imgs else Some(SpreadChars(room.images[|room.images| - 1])))
  }

  /** A seeded form passes validation exactly when the room's scalars are
      non-empty, it has a facility, and its last stored image is a non-empty
      string (or, without stored images, `imgs` was already set). */
  lemma SeededValidates(v: FormValues, room: Room)
    ensures Validate(Seeded(v, room)).Success? <==>
      && room.roomNumber != "" && room.price != "" && room.capacity != "" && room.discount != ""
      && room.facilities != []
      && (if room.images == [] then !Missing(v, Imgs) else room.images[|room.images| - 1] != "")
  {
    var s := Seeded(v, room);
    var imgsOk := if room.images == [] then !Missing(v, Imgs) else room.images[|room.images| - 1] != "";
    assert Missing(s, RoomNumber) <==> room.roomNumber == "";
    assert Missing(s, Price) <==> room.price == "";
    assert Missing(s, Capacity) <==> room.capacity == "";
    assert Missing(s, Discount) <==> room.discount == "";
    assert Missing(s, FacilitiesField) <==> room.facilities == [] by {
      assert |FacilityIds(room.facilities)| == |room.facilities|;
    }
    assert Missing(s, Imgs) <==> !imgsOk by {
      if room.images != [] {
        assert |SpreadChars(room.images[|room.images| - 1])| == |room.images[|room.images| - 1]|;
      }
    }
    if Validate(s).Success? {
      assert !Missing(s, RoomNumber) && !Missing(s, Price) && !Missing(s, Capacity);
      assert !Missing(s, Discount) && !Missing(s, FacilitiesField) && !Missing(s, Imgs);
    } else {
      var f :| Missing(s, f);
      match f
      case RoomNumber =>
      case Price =>
      case Capacity =>
      case Discount =>
      case FacilitiesField =>
      case Imgs =>
    }
  }

  /** The seeded facilities are the room's facility ids, one per facility,
      in the same order, duplicates kept. */
  lemma SeededFacilities(v: FormValues, room: Room)
    ensures Seeded(v, room).facilities.Some? && Seeded(v, room).facilities.value.Ids?
    ensures var ids := Seeded(v, room).facilities.value.ids;
      |ids| == |room.facilities| && forall i :: 0 <= i < |ids| ==> ids[i] == room.facilities[i].id
  {
  }

  /** Every Navigate event comes straight after a success toast. */
  predicate NavigationFollowsSuccess(events: seq<Event>)
  {
    forall i :: 0 <= i < |events| && events[i].Navigate? ==>
      0 < i && events[i - 1].Toast? && events[i - 1].kind == SuccessToast
  }

  /** A body a receiver reads back as a room with non-empty scalar fields and
      at least one image. */
  predicate SentRoom(body: Payload)
  {
    match ParseFormData(body)
    case None => false
    case Some(d) =>
      d.roomNumber != "" && d.price != "" && d.capacity != "" && d.discount != "" && d.imgs != []
  }

  /** The body built from values that passed validation is such a room. */
  lemma CompleteBodyIsSentRoom(body: Payload, data: Inputs)
    requires Encodes(body, data) && Complete(data)
    ensures SentRoom(body)
  {
    ParseAfterAppend(body, data);
  }

  class RoomsDataForm {
    /** The location, fixed for the component's lifetime. */
    const pathname: string
    const state: Option<string>
    const roomData: Option<Room>
    const roomId: Option<string>

    var facilitiesList: seq<Facility>
    var loading: bool
    var spinner: bool
    var values: FormValues
    var errors: seq<FieldError>
    var events: seq<Event>

    /** Requests awaited and not yet settled. */
    ghost var pendingSubmits: nat
    ghost var pendingLoads: nat

    /** A flag is only raised while its request is outstanding; every
        navigation follows a success toast; every request sent goes to this
        page's route. */
    ghost predicate Valid()
      reads this
    {
      && roomId == RoomId(pathname)
      && (loading ==> pendingSubmits > 0)
      && (spinner ==> pendingLoads > 0)
      && NavigationFollowsSuccess(events)
      && forall i :: 0 <= i < |events| && events[i].Send? ==>
           events[i].request == RequestFor(state, roomId, events[i].request.data)
    }

    /** Mounting on `location`: `roomId` is read from the path. */
    constructor (pathname: string, state: Option<string>, roomData: Option<Room>)
      ensures Valid()
      ensures this.pathname == pathname && this.state == state && this.roomData == roomData
      ensures roomId == RoomId(pathname)
      ensures facilitiesList == [] && !loading && !spinner
      ensures values == NoValues && errors == [] && events == []
      ensures pendingSubmits == 0 && pendingLoads == 0
    {
      this.pathname := pathname;
      this.state := state;
      this.roomData := roomData;
      this.roomId := RoomId(pathname);
      facilitiesList := [];
      loading := false;
      spinner := false;
      values := NoValues;
      errors := [];
      events := [];
      pendingSubmits := 0;
      pendingLoads := 0;
    }

    /** getFacilitiesList up to the await: raise `spinner`, send the GET. */
    method GetFacilitiesList()
      requires Valid()
      modifies this`spinner, this`events, this`pendingLoads
      ensures Valid()
      ensures spinner && pendingLoads == old(pendingLoads) + 1
      ensures events == old(events) + [Get(FacilitiesUrl)]
    {
      spinner := true;
      pendingLoads := pendingLoads + 1;
      events := events + [Get(FacilitiesUrl)];
    }

    /** getFacilitiesList after the await: lower `spinner` on both paths;
        replace the list on success, toast the error on failure. */
    method GetFacilitiesListSettled(outcome: Outcome<seq<Facility>>)
      requires Valid() && pendingLoads > 0
      modifies this`spinner, this`facilitiesList, this`events, this`pendingLoads
      ensures Valid()
      ensures !spinner && pendingLoads == old(pendingLoads) - 1
      ensures outcome.Resolved? ==> facilitiesList == outcome.value && events == old(events)
      ensures outcome.Rejected? ==>
        facilitiesList == old(facilitiesList) && events == old(events) + [Toast(ErrorToast, outcome.message)]
    {
      pendingLoads := pendingLoads - 1;
      match outcome
      case Resolved(facilities) =>
        facilitiesList := facilities;
        spinner := false;
      case Rejected(message) =>
        spinner := false;
        events := events + [Toast(ErrorToast, message)];
    }

    /** The edit seeding: only in edit mode with a room record; `imgs` is
        set once per stored image, each time replacing the previous one. */
    method SeedEditValues()
      requires Valid()
      modifies this`values
      ensures Valid()
      ensures IsEdit(state) && roomData.Some? ==> values == Seeded(old(values), roomData.value)
      ensures !(IsEdit(state) && roomData.Some?) ==> values == old(values)
    {
      if IsEdit(state) && roomData.Some? {
        var room := roomData.value;
        values := values.(roomNumber := Some(room.roomNumber));
        values := values.(price := Some(room.price));
        values := values.(capacity := Some(room.capacity));
        values := values.(discount := Some(room.discount));
        values := values.(facilities := Some(Ids(FacilityIds(room.facilities))));
        ghost var base := values;
        for i := 0 to |room.images|
          invariant values == base.(imgs := if i == 0 then base.imgs else Some(SpreadChars(room.images[i - 1])))
        {
          values := values.(imgs := Some(SpreadChars(room.images[i])));
        }
      }
    }

    /** The mount effect: start the facilities load, then seed the form. */
    method MountEffect()
      requires Valid()
      modifies this`spinner, this`events, this`pendingLoads, this`values
      ensures Valid()
      ensures spinner && pendingLoads == old(pendingLoads) + 1
      ensures events == old(events) + [Get(FacilitiesUrl)]
      ensures values == if IsEdit(state) && roomData.Some? then Seeded(old(values), roomData.value) else old(values)
    {
      GetFacilitiesList();
      SeedEditValues();
    }

    /** onSubmit up to the await: raise `loading`, build the body, send PUT
        to the room in edit mode and POST to the collection otherwise. */
    method OnSubmit(data: Inputs) returns (request: Request)
      requires Valid()
      modifies this`loading, this`events, this`pendingSubmits
      ensures Valid()
      ensures loading && pendingSubmits == old(pendingSubmits) + 1
      ensures request == RequestFor(state, roomId, request.data)
      ensures Encodes(request.data, data)
      ensures events == old(events) + [Send(request)]
    {
      loading := true;
      pendingSubmits := pendingSubmits + 1;
      var body := AppendToFormData(data);
      request := RequestFor(state, roomId, body);
      events := events + [Send(request)];
    }

    /** onSubmit after the await: lower `loading` on both paths; toast and
        navigate to the listing on success, toast the error on failure. The
        form values are not touched. */
    method OnSubmitSettled(outcome: Outcome<string>)
      requires Valid() && pendingSubmits > 0
      modifies this`loading, this`events, this`pendingSubmits
      ensures Valid()
      ensures !loading && pendingSubmits == old(pendingSubmits) - 1
      ensures outcome.Resolved? ==>
        events == old(events) + [Toast(SuccessToast, outcome.value), Navigate(ListingPath)]
      ensures outcome.Rejected? ==> events == old(events) + [Toast(ErrorToast, outcome.message)]
    {
      pendingSubmits := pendingSubmits - 1;
      match outcome
      case Resolved(message) =>
        events := events + [Toast(SuccessToast, message)];
        loading := false;
        events := events + [Navigate(ListingPath)];
      case Rejected(message) =>
        loading := false;
        events := events + [Toast(ErrorToast, message)];
    }

    /** handleSubmit(onSubmit): run every `required` rule; with a failing
        rule record the errors and send nothing, otherwise clear the errors
        and call onSubmit with the values. That the body sent then reads back
        as a complete room is `CompleteBodyIsSentRoom`. */
    method HandleSubmit() returns (dispatched: Option<Request>)
      requires Valid()
      modifies this`errors, this`loading, this`events, this`pendingSubmits
      ensures Valid()
      ensures dispatched.Some? <==> Validate(values).Success?
      ensures Validate(values).Failure? ==>
        && errors == RequiredErrors(values)
        && events == old(events) && loading == old(loading) && pendingSubmits == old(pendingSubmits)
      ensures dispatched.Some? ==>
        && errors == [] && loading && pendingSubmits == old(pendingSubmits) + 1
        && events == old(events) + [Send(dispatched.value)]
        && dispatched.value == RequestFor(state, roomId, dispatched.value.data)
        && Encodes(dispatched.value.data, Validate(values).value)
    {
      match Validate(values)
      case Failure(errs) =>
        errors := errs;
        dispatched := None;
      case Success(data) =>
        errors := [];
        var request := OnSubmit(data);
        dispatched := Some(request);
    }
  }
}
