/** The five sample regions. The backend lists them in its `/regions`
    response (backend/routes/analyze.js) and the frontend map offers the same
    list for clicking (frontend/src/components/MapView.jsx); both files hold
    the identical array, defined here once. */
module Regions {

  /** A place the user can analyse. `id` is a number for the samples and a
      click timestamp for a region made up from a map click. */
  datatype SampleRegion = SampleRegion(
    id: real,
    name: string,
    lat: real,
    lng: real,
    country: string,
    degradationLevel: string,
    description: string)

  const SampleRegions: seq<SampleRegion> := [
    SampleRegion(1.0, "Machakos County, Kenya", -1.5177, 37.2634, "Kenya", "high",
                 "Semi-arid region experiencing severe soil erosion"),
    SampleRegion(2.0, "Rajasthan Desert, India", 27.0238, 74.2179, "India", "severe",
                 "Desert expansion and drought stress"),
    SampleRegion(3.0, "Sahel Region, Niger", 13.5116, 2.1254, "Niger", "severe",
                 "Desertification and overgrazing"),
    SampleRegion(4.0, "São Paulo Farmland, Brazil", -23.5505, -46.6333, "Brazil", "moderate",
                 "Agricultural intensification impacts"),
    SampleRegion(5.0, "Inner Mongolia, China", 40.8142, 111.9562, "China", "high",
                 "Grassland degradation and desertification")
  ]
}
