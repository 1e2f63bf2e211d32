/** A day picked in one of the pages' date pickers. Only its presence matters to the
    logic modelled here; the pickers' "not in the past" rule reads the clock and is left out. */
module Calendar {

  datatype Date = Date(year: int, month: int, day: int)
}
