/** Scenarios: traces of the component, checked against its contracts: a successful
    create, a failed submit, a blocked submit, a second submit while the
    first is in flight, and an edit of a seeded room. */
module Scenarios {
  import opened Wrappers
  import Paths
  import opened FormPayload
  import opened Validation
  import opened Routing
  import opened RoomsData

  /** A filled-in create form with one facility and one image. */
  function Filled(roomNumber: string, price: string, capacity: string, discount: string,
                  facility: string, image: FormDataValue): FormValues
  {
    FormValues(Some(roomNumber), Some(price), Some(capacity), Some(discount), Some(Ids([facility])), Some([image]))
  }

  /** A filled-in form passes every rule and hands its values to onSubmit. */
  lemma FilledValidates(roomNumber: string, price: string, capacity: string, discount: string,
                        facility: string, image: FormDataValue)
    requires roomNumber != "" && price != "" && capacity != "" && discount != ""
    ensures Validate(Filled(roomNumber, price, capacity, discount, facility, image)) ==
      Success(Inputs(roomNumber, price, capacity, discount, Ids([facility]), [image]))
  {
    var v := Filled(roomNumber, price, capacity, discount, facility, image);
    assert !Missing(v, FacilitiesField) && !Missing(v, Imgs);
  }

  /** Create: POST to the collection with `facilities[]=facility` and one
      `imgs` entry, with `loading` up while it is in flight. */
  method CreateSendsPost(roomNumber: string, price: string, capacity: string, discount: string,
                         facility: string, image: FormDataValue, path: string)
    requires roomNumber != "" && price != "" && capacity != "" && discount != ""
  {
    var form := new RoomsDataForm(path, None, None);
    form.values := Filled(roomNumber, price, capacity, discount, facility, image);
    FilledValidates(roomNumber, price, capacity, discount, facility, image);
    var sent := form.HandleSubmit();
    var request := sent.value;
    assert request.verb == Post && request.url == "/admin/rooms";
    assert |request.data| == 6;
    ghost var data := Validate(form.values).value;
    assert SelectedIds(data.facilities)[0] == facility && data.imgs[0] == image;
    assert request.data[4] == ("facilities[]", Text(facility));
    assert request.data[5] == ("imgs", image);
    assert form.loading;
  }

  /** A successful create lowers `loading`, toasts the server's message and
      then navigates to the listing. */
  method CreateSuccessNavigates(roomNumber: string, price: string, capacity: string, discount: string,
                                facility: string, image: FormDataValue, message: string, path: string)
    requires roomNumber != "" && price != "" && capacity != "" && discount != ""
  {
    var form := new RoomsDataForm(path, None, None);
    form.values := Filled(roomNumber, price, capacity, discount, facility, image);
    FilledValidates(roomNumber, price, capacity, discount, facility, image);
    var sent := form.HandleSubmit();
    form.OnSubmitSettled(Resolved(message));
    assert !form.loading;
    assert form.events == [Send(sent.value), Toast(SuccessToast, message), Navigate(ListingPath)];
  }

  /** A rejected submit leaves the values as they were, lowers `loading`,
      toasts the extracted message and does not navigate. */
  method FailedSubmitKeepsValues(roomNumber: string, price: string, capacity: string, discount: string,
                                 facility: string, image: FormDataValue, message: string, path: string)
    requires roomNumber != "" && price != "" && capacity != "" && discount != ""
  {
    var form := new RoomsDataForm(path, None, None);
    var v := Filled(roomNumber, price, capacity, discount, facility, image);
    form.values := v;
    FilledValidates(roomNumber, price, capacity, discount, facility, image);
    var sent := form.HandleSubmit();
    form.OnSubmitSettled(Rejected(message));
    assert form.values == v && !form.loading;
    assert form.events == [Send(sent.value), Toast(ErrorToast, message)];
  }

  /** A form with an empty price sends nothing and reports that field with
      its own message. */
  method MissingPriceBlocksSubmit(roomNumber: string, capacity: string, discount: string,
                                  facility: string, image: FormDataValue, path: string)
    requires roomNumber != ""
  {
    var form := new RoomsDataForm(path, None, None);
    form.values := Filled(roomNumber, "", capacity, discount, facility, image);
    assert Missing(form.values, Price);
    var sent := form.HandleSubmit();
    assert sent.None? && form.events == [];
    assert FieldError(Price, "Price is required") in form.errors;
    assert !Missing(form.values, RoomNumber);
    assert FieldError(RoomNumber, "Room Number is required") !in form.errors;
  }

  /** Nothing stops a second submit while the first is in flight: two
      requests are sent, and the first settlement lowers `loading` while the
      second is still outstanding. */
  method SecondSubmitInFlight(roomNumber: string, price: string, capacity: string, discount: string,
                              facility: string, image: FormDataValue, message: string, path: string)
    requires roomNumber != "" && price != "" && capacity != "" && discount != ""
  {
    var form := new RoomsDataForm(path, None, None);
    form.values := Filled(roomNumber, price, capacity, discount, facility, image);
    FilledValidates(roomNumber, price, capacity, discount, facility, image);
    var first := form.HandleSubmit();
    var second := form.HandleSubmit();
    assert |form.events| == 2 && form.events[0].Send? && form.events[1].Send?;
    form.OnSubmitSettled(Resolved(message));
    assert !form.loading && form.pendingSubmits == 1;
  }

  /** Edit: the mount effect seeds the room, with the facility ids in order
      and `imgs` holding the characters of the last stored image only. */
  method SeededEdit(room: Room, id: string)
    requires |room.facilities| == 2 && |room.images| == 2
  {
    var form := new RoomsDataForm("/dashboard/rooms/" + id, Some("edit"), Some(room));
    form.MountEffect();
    assert form.spinner && form.events == [Get(FacilitiesUrl)];
    SeededFacilities(NoValues, room);
    ghost var ids := form.values.facilities.value.ids;
    assert ids[0] == room.facilities[0].id && ids[1] == room.facilities[1].id;
    assert ids == [room.facilities[0].id, room.facilities[1].id];
    assert form.values.imgs == Some(SpreadChars(room.images[1]));
    form.GetFacilitiesListSettled(Rejected("Network Error"));
    assert !form.spinner && form.facilitiesList == [];
    assert form.events == [Get(FacilitiesUrl), Toast(ErrorToast, "Network Error")];
  }

  /** Submitting a seeded room sends a PUT to the room named by the path,
      with one `imgs` entry per character of the last stored image. */
  method SeededEditSubmit(room: Room, path: string, id: string)
    requires room.roomNumber != "" && room.price != "" && room.capacity != "" && room.discount != ""
    requires |room.facilities| == 2 && |room.images| == 2 && room.images[1] != ""
    requires Paths.RoomId(path) == Some(id)
  {
    var form := new RoomsDataForm(path, Some("edit"), Some(room));
    form.MountEffect();
    SeededValidates(NoValues, room);
    var sent := form.HandleSubmit();
    assert sent.value.verb == Put && sent.value.url == "/admin/rooms/" + id;
    ghost var data := Validate(form.values).value;
    assert |SelectedIds(data.facilities)| == 2 && data.imgs[0] == Text([room.images[1][0]]);
    assert sent.value.data[6] == ("imgs", Text([room.images[1][0]]));
  }
}
