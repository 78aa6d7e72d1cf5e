/** The motivational screen: a weighted score of the four results picks one
    of three messages. */
module Motivational {

  datatype Resultados = Resultados(fuerza: real, velocidad: real, flexibilidad: real, resistencia: real)

  /** The fixed sample the screen is fed. */
  const ResultadosSimulados := Resultados(20.0, 11.5, 18.0, 5.0)

  const TopMessage := "¡Increíble desempeño! Eres una máquina 💪🚀"
  const MiddleMessage := "Muy buen trabajo. Sigue así, vas por excelente camino 🏃‍♂️✨"
  const BaseMessage := "¡Buen comienzo! Con disciplina lograrás grandes cambios 🧠🔥"

  /** Strength, flexibility and endurance count for, speed (a time) against. */
  function Puntaje(data: Resultados): real
  {
    data.fuerza * 1.5 + data.flexibilidad * 1.2 + data.resistencia * 10.0 - data.velocidad * 2.0
  }

  datatype Tier = Base | Middle | Top

  function TierOf(score: real): (t: Tier)
    ensures t == Top <==> score >= 100.0
    ensures t == Middle <==> 70.0 <= score < 100.0
    ensures t == Base <==> score < 70.0
  {
    if score >= 100.0 then Top else if score >= 70.0 then Middle else Base
  }

  function Rank(t: Tier): nat
  {
    match t
    case Base => 0
    case Middle => 1
    case Top => 2
  }

  function MessageOf(t: Tier): string
  {
    match t
    case Top => TopMessage
    case Middle => MiddleMessage
    case Base => BaseMessage
  }

  /** `generarMensaje`: exactly one of the three messages, chosen by the
      thresholds 100 and 70 on the weighted score. */
  function GenerarMensaje(data: Resultados): (m: string)
    ensures m == TopMessage <==> Puntaje(data) >= 100.0
    ensures m == MiddleMessage <==> 70.0 <= Puntaje(data) < 100.0
    ensures m == BaseMessage <==> Puntaje(data) < 70.0
  {
    MessageOf(TierOf(Puntaje(data)))
  }

  /** A better result in any category never earns a lower tier: more
      strength, flexibility or endurance, or a shorter speed time. */
  lemma TierMonotonic(d: Resultados, e: Resultados)
    requires d.fuerza <= e.fuerza && d.flexibilidad <= e.flexibilidad
    requires d.resistencia <= e.resistencia && d.velocidad >= e.velocidad
    ensures Rank(TierOf(Puntaje(d))) <= Rank(TierOf(Puntaje(e)))
  {
  }

  /** The sample scores 78.6 and gets the middle message. */
  lemma SimulatedIsMiddle()
    ensures Puntaje(ResultadosSimulados) == 78.6
    ensures GenerarMensaje(ResultadosSimulados) == MiddleMessage
  {
  }
}
