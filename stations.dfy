/** The fixed table of monitoring stations and their positions (Redirect/airq.go). */
module Stations {

  /** A station's position; IEEE doubles in the source, only copied, so reals here. */
  datatype Coordinates = Coordinates(longitude: real, latitude: real)

  /** Station display name to position; a name must match exactly. */
  const Table: map<string, Coordinates> := map[
    "Southern" := Coordinates(114.16014, 22.247461),
    "North" := Coordinates(114.128244, 22.496697),
    "Kwun Tong" := Coordinates(114.231174, 22.309625),
    "Tseung Kwan O" := Coordinates(114.259561, 22.317642),
    "Tuen Mun" := Coordinates(113.976728, 22.391143),
    "Tung Chung" := Coordinates(113.943659, 22.288889),
    "Eastern Air" := Coordinates(114.219372, 22.282886),
    "Tap Mun" := Coordinates(114.360719, 22.471317),
    "Kwai Chung" := Coordinates(114.129601, 22.357104),
    "Yuen Long" := Coordinates(114.022649, 22.445155),
    "Sha Tin" := Coordinates(114.184532, 22.376281),
    "Sham Shui Po" := Coordinates(114.159109, 22.330226),
    "Tai Po" := Coordinates(114.16457, 22.45096),
    "Mong Kok" := Coordinates(114.168272, 22.322611),
    "Central/Western" := Coordinates(114.144421, 22.284891),
    "Central" := Coordinates(114.158127, 22.281815),
    "Causeway Bay" := Coordinates(114.18509, 22.280133),
    "Tsuen Wan" := Coordinates(114.114535, 22.371742)
  ]
}
