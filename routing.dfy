/** The request `onSubmit` dispatches: PUT to the room in edit mode, POST to
    the collection otherwise. */
module Routing {
  import opened Wrappers
  import opened Paths
  import opened FormPayload

  datatype Method = Put | Post

  datatype Request = Request(verb: Method, url: string, data: Payload)

  /** `state === "edit"` on the navigation state. */
  predicate IsEdit(state: Option<string>)
  {
    state == Some("edit")
  }

  /** Template-literal interpolation: an undefined id prints "undefined". */
  function Interpolate(id: Option<string>): (s: string)
    ensures id.Some? ==> s == id.value
    ensures id.None? ==> s == "undefined"
  {
    match id
    case Some(s) => s
    case None => "undefined"
  }

  /** The method, url and body of the submit request. */
  function RequestFor(state: Option<string>, roomId: Option<string>, body: Payload): (r: Request)
    ensures r.data == body
    ensures r.verb == Put <==> IsEdit(state)
    ensures IsEdit(state) ==> r.url == "/admin/rooms/" + Interpolate(roomId)
    ensures !IsEdit(state) ==> r.url == "/admin/rooms"
  {
    Request(if IsEdit(state) then Put else Post,
            if IsEdit(state) then "/admin/rooms/" + Interpolate(roomId) else "/admin/rooms",
            body)
  }

  /** The url of an edit request names, at the same path position, the room
      named by the page path; an undefined id is sent as "undefined"; a create
      request names no room. */
  lemma RequestTargetsRoom(state: Option<string>, pathname: string, body: Payload)
    ensures IsEdit(state) && RoomId(pathname).Some? ==>
      RoomId(RequestFor(state, RoomId(pathname), body).url) == RoomId(pathname)
    ensures IsEdit(state) && RoomId(pathname).None? ==>
      RoomId(RequestFor(state, RoomId(pathname), body).url) == Some("undefined")
    ensures !IsEdit(state) ==> RoomId(RequestFor(state, RoomId(pathname), body).url) == None
  {
    var id := RoomId(pathname);
    var url := RequestFor(state, id, body).url;
    if IsEdit(state) {
      assert url == "/" + "admin" + "/" + "rooms" + "/" + Interpolate(id) + "";
      RoomIdOfPath("admin", "rooms", Interpolate(id), "");
    } else {
      assert url == "/" + "admin" + "/" + "rooms";
      RoomIdOfShortPath("admin", "rooms");
    }
  }
}
