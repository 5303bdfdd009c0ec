/** The vehicle record as the browser reads it. The dataset module itself is not
    part of this model: the catalogue (`getAllCars()`) is passed in as a sequence
    and a lookup (`getCarById`) as its result, a record or nothing. */
module Vehicles {

  datatype Vehicle = Vehicle(
    id: string,
    brand: string,
    model: string,
    year: nat,
    price: nat,
    category: string,
    fuelType: string,
    status: string,
    color: string,
    images: seq<string>)

  /** No two records of the catalogue share an id. */
  ghost predicate UniqueIds(cars: seq<Vehicle>) {
    forall i, j :: 0 <= i < j < |cars| ==> cars[i].id != cars[j].id
  }
}
