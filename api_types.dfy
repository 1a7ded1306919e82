/** Shared API records of the back-ends (types/api.go). Temperatures are reals. */
module ApiTypes {
  /** Absolute zero in Celsius marks an invalid temperature reading. */
  const InvalidTemperatureReading: real := -273.15

  datatype TemperatureStatus = TemperatureStatus(material: real, oven: real)

  /** Power levels in percent; int8 in the source. */
  datatype PsuStatus = PsuStatus(heater: int, fan: int, humidifier: int)

  /** The running program's status, as the engines publish it and the log writers record it. */
  datatype ExecutionStatus = ExecutionStatus(
    startedAt: int,
    currentStep: string,
    currentStepStartedAt: int,
    temperatures: TemperatureStatus,
    powerStatus: PsuStatus)
}
