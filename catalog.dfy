/** The records the booking API hands to the screens. */
module Catalog {

  /** One bookable date and time of an experience. `booked <= capacity` is assumed by
      the API, never checked here. */
  datatype Slot = Slot(date: string, time: string, capacity: int, booked: int)

  /** An experience as listed and as fetched for its details screen. Prices are whole
      currency units. */
  datatype Experience = Experience(
    id: string,
    name: string,
    location: string,
    description: string,
    price: int,
    image: string,
    slots: seq<Slot>)

  /** Places still free in a slot; it is shown as sold out when this is not positive. */
  function Remaining(slot: Slot): (free: int)
    ensures free > 0 <==> slot.booked < slot.capacity
    ensures slot.booked >= 0 ==> free <= slot.capacity
  {
    slot.capacity - slot.booked
  }
}
