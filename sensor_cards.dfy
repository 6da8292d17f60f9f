/**
 * The status line under each card of the "Live Sensors" tab: a three-way label chosen by two
 * strict thresholds on the card's reading. pH is in tenths, so `parseFloat(ph) > 7` is
 * `phTenths > 70`.
 */
module SensorCards {

  function NitrogenLabel(nitrogen: int): (tag: string)
    ensures tag == "Optimal" <==> nitrogen > 60
    ensures tag == "Moderate" <==> 30 < nitrogen <= 60
    ensures tag == "Low" <==> nitrogen <= 30
  {
    if nitrogen > 60 then "Optimal" else if nitrogen > 30 then "Moderate" else "Low"
  }

  function PhosphorusLabel(phosphorus: int): (tag: string)
    ensures tag == "Optimal" <==> phosphorus > 50
    ensures tag == "Moderate" <==> 25 < phosphorus <= 50
    ensures tag == "Low" <==> phosphorus <= 25
  {
    if phosphorus > 50 then "Optimal" else if phosphorus > 25 then "Moderate" else "Low"
  }

  function PotassiumLabel(potassium: int): (tag: string)
    ensures tag == "Optimal" <==> potassium > 80
    ensures tag == "Moderate" <==> 50 < potassium <= 80
    ensures tag == "Low" <==> potassium <= 50
  {
    if potassium > 80 then "Optimal" else if potassium > 50 then "Moderate" else "Low"
  }

  function TemperatureLabel(temperature: int): (tag: string)
    ensures tag == "Warm" <==> temperature > 25
    ensures tag == "Moderate" <==> 20 < temperature <= 25
    ensures tag == "Cool" <==> temperature <= 20
  {
    if temperature > 25 then "Warm" else if temperature > 20 then "Moderate" else "Cool"
  }

  function HumidityLabel(humidity: int): (tag: string)
    ensures tag == "High" <==> humidity > 70
    ensures tag == "Moderate" <==> 50 < humidity <= 70
    ensures tag == "Low" <==> humidity <= 50
  {
    if humidity > 70 then "High" else if humidity > 50 then "Moderate" else "Low"
  }

  function PhLabel(phTenths: int): (tag: string)
    ensures tag == "Alkaline" <==> phTenths > 70
    ensures tag == "Neutral" <==> 60 < phTenths <= 70
    ensures tag == "Acidic" <==> phTenths <= 60
  {
    if phTenths > 70 then "Alkaline" else if phTenths > 60 then "Neutral" else "Acidic"
  }

  /** The thresholds are strict: a reading equal to a threshold takes the lower label. */
  lemma ThresholdsAreStrict()
    ensures NitrogenLabel(60) == "Moderate" && NitrogenLabel(30) == "Low"
    ensures PhosphorusLabel(50) == "Moderate" && PhosphorusLabel(25) == "Low"
    ensures PotassiumLabel(80) == "Moderate" && PotassiumLabel(50) == "Low"
    ensures TemperatureLabel(25) == "Moderate" && TemperatureLabel(20) == "Cool"
    ensures HumidityLabel(70) == "Moderate" && HumidityLabel(50) == "Low"
    ensures PhLabel(70) == "Neutral" && PhLabel(60) == "Acidic"
  {
  }
}
